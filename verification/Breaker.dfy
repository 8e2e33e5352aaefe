/**
 The circuit breaker (internal/proxy/breaker.go) over whole runs.  Each Allow reads the clock once
 for the cooldown check and once when it trips; times never decrease.
 */
module Breaker {
  datatype Config = Config(threshold: real, cooldown: int)

  datatype State = State(failures: nat, successes: nat, openUntil: int)

  datatype Op = Ask(checkedAt: int, trippedAt: int) | Report(success: bool)

  /** What a run shows: answers with their times, and recorded outcomes. */
  datatype Seen = Answer(checkedAt: int, trippedAt: int, allowed: bool, tripped: bool) | Outcome(success: bool)

  function Rate(failures: nat, successes: nat): real
    requires failures + successes > 0
  {
    failures as real / (failures + successes) as real
  }

  /** Enough outcomes, and too many of them failures. */
  predicate Overloaded(threshold: real, failures: nat, successes: nat) {
    failures + successes >= 5 && Rate(failures, successes) > threshold
  }

  function Step(cfg: Config, s: State, op: Op): (State, Seen) {
    match op
    case Report(success) =>
      (if success then s.(successes := s.successes + 1) else s.(failures := s.failures + 1), Outcome(success))
    case Ask(t1, t2) =>
      if t1 < s.openUntil then (s, Answer(t1, t2, false, false))
      else if Overloaded(cfg.threshold, s.failures, s.successes) then (State(0, 0, t2 + cfg.cooldown), Answer(t1, t2, false, true))
      else (s, Answer(t1, t2, true, false))
  }

  /** The breaker object; the zero time.Time lies before every clock reading. */
  class CircuitBreaker {
    const cfg: Config
    var failures: nat
    var successes: nat
    var openUntil: int

    ghost function View(): State
      reads this
    {
      State(failures, successes, openUntil)
    }

    constructor (cfg: Config)
      ensures this.cfg == cfg && View() == START
    {
      this.cfg := cfg;
      failures, successes, openUntil := 0, 0, 0;
    }

    method Allow(checkedAt: int, trippedAt: int) returns (ok: bool)
      modifies this
      ensures View() == Step(cfg, old(View()), Ask(checkedAt, trippedAt)).0
      ensures ok == Step(cfg, old(View()), Ask(checkedAt, trippedAt)).1.allowed
    {
      if checkedAt < openUntil {
        return false;
      }
      var total := failures + successes;
      if total < 5 {
        return true;
      }
      var rate := failures as real / total as real;
      if rate > cfg.threshold {
        openUntil := trippedAt + cfg.cooldown;
        failures := 0;
        successes := 0;
        return false;
      }
      return true;
    }

    method Record(success: bool)
      modifies this`failures, this`successes
      ensures View() == Step(cfg, old(View()), Report(success)).0
    {
      if success {
        successes := successes + 1;
      } else {
        failures := failures + 1;
      }
    }
  }

  // ----- runs -----

  const START := State(0, 0, 0)

  function Final(cfg: Config, ops: seq<Op>): State {
    if ops == [] then START else Step(cfg, Final(cfg, ops[..|ops| - 1]), ops[|ops| - 1]).0
  }

  function Log(cfg: Config, ops: seq<Op>): (log: seq<Seen>)
    ensures |log| == |ops|
  {
    if ops == [] then []
    else Log(cfg, ops[..|ops| - 1]) + [Step(cfg, Final(cfg, ops[..|ops| - 1]), ops[|ops| - 1]).1]
  }

  ghost predicate Clocked(ops: seq<Op>) {
    && (forall i | 0 <= i < |ops| && ops[i].Ask? :: 0 <= ops[i].checkedAt <= ops[i].trippedAt)
    && (forall i, j | 0 <= i < j < |ops| && ops[i].Ask? && ops[j].Ask? :: ops[i].trippedAt <= ops[j].checkedAt)
  }

  predicate Trip(o: Seen) { o.Answer? && o.tripped }

  /** The position after the last trip, 0 when there was none. */
  function SinceTrip(log: seq<Seen>): (k: nat)
    ensures k <= |log|
    ensures k > 0 ==> Trip(log[k - 1])
    ensures forall i | k <= i < |log| :: !Trip(log[i])
  {
    if log == [] then 0
    else if Trip(log[|log| - 1]) then |log|
    else SinceTrip(log[..|log| - 1])
  }

  function Count(log: seq<Seen>, success: bool): nat {
    if log == [] then 0
    else Count(log[..|log| - 1], success) + (if log[|log| - 1] == Outcome(success) then 1 else 0)
  }

  function Trips(log: seq<Seen>): nat {
    if log == [] then 0 else Trips(log[..|log| - 1]) + (if Trip(log[|log| - 1]) then 1 else 0)
  }

  lemma CountSnoc(log: seq<Seen>, o: Seen, success: bool)
    ensures Count(log + [o], success) == Count(log, success) + (if o == Outcome(success) then 1 else 0)
  {
    assert (log + [o])[..|log|] == log;
  }

  lemma CountNone()
    ensures Count([], false) == Count([], true) == 0
  {
  }

  lemma SinceTripSnoc(log: seq<Seen>, o: Seen)
    ensures SinceTrip(log + [o]) == if Trip(o) then |log| + 1 else SinceTrip(log)
  {
    assert (log + [o])[..|log|] == log;
  }

  /** The state is the history since the last trip. */
  ghost predicate Remembers(cfg: Config, s: State, log: seq<Seen>) {
    var k := SinceTrip(log);
    && s.failures == Count(log[k..], false)
    && s.successes == Count(log[k..], true)
    && s.openUntil == if k == 0 then 0 else log[k - 1].trippedAt + cfg.cooldown
  }

  lemma StepRemembers(cfg: Config, s: State, log: seq<Seen>, op: Op)
    requires Remembers(cfg, s, log)
    ensures Remembers(cfg, Step(cfg, s, op).0, log + [Step(cfg, s, op).1])
  {
    hide Overloaded, Count, SinceTrip;
    var (next, o) := Step(cfg, s, op);
    var k := SinceTrip(log);
    SinceTripSnoc(log, o);
    if Trip(o) {
      assert (log + [o])[|log| + 1..] == [];
      CountNone();
    } else {
      assert (log + [o])[k..] == log[k..] + [o];
      CountSnoc(log[k..], o, false);
      CountSnoc(log[k..], o, true);
    }
  }

  lemma {:induction false} FinalRemembers(cfg: Config, ops: seq<Op>)
    ensures Remembers(cfg, Final(cfg, ops), Log(cfg, ops))
  {
    if ops == [] {
      assert Log(cfg, ops)[0..] == [];
    } else {
      FinalRemembers(cfg, ops[..|ops| - 1]);
      StepRemembers(cfg, Final(cfg, ops[..|ops| - 1]), Log(cfg, ops[..|ops| - 1]), ops[|ops| - 1]);
    }
  }

  lemma {:induction false} LogPrefix(cfg: Config, ops: seq<Op>, i: nat)
    requires i <= |ops|
    ensures Log(cfg, ops)[..i] == Log(cfg, ops[..i])
    ensures i < |ops| ==> Log(cfg, ops)[i] == Step(cfg, Final(cfg, ops[..i]), ops[i]).1
  {
    hide Step, Final;
    if i < |ops| {
      var n := |ops| - 1;
      if i < n {
        LogPrefix(cfg, ops[..n], i);
        assert ops[..n][..i] == ops[..i];
      }
      assert Log(cfg, ops)[..n] == Log(cfg, ops[..n]);
      assert Log(cfg, ops)[..i] == Log(cfg, ops)[..n][..i];
    } else {
      assert ops[..i] == ops;
    }
  }

  // ----- the theorems -----

  /** Every answer follows from the history before it: refused in the cooldown of the last trip, refused and
      tripped when the outcomes since then are overloaded, allowed otherwise. */
  lemma AnswerLaw(cfg: Config, ops: seq<Op>, i: nat)
    requires Clocked(ops) && i < |ops| && ops[i].Ask?
    ensures var log := Log(cfg, ops);
            var k := SinceTrip(log[..i]);
            var cooling := k > 0 && log[i].Answer? && log[i].checkedAt < log[k - 1].trippedAt + cfg.cooldown;
            var failed, total := Count(log[k..i], false), Count(log[k..i], false) + Count(log[k..i], true);
            var overloaded := total >= 5 && ExceedsShare(failed, cfg.threshold, total);
            log[i] == Answer(ops[i].checkedAt, ops[i].trippedAt, !cooling && !overloaded, !cooling && overloaded)
  {
    hide Overloaded, ExceedsShare;
    LogPrefix(cfg, ops, i);
    FinalRemembers(cfg, ops[..i]);
    var log := Log(cfg, ops);
    var k := SinceTrip(log[..i]);
    assert log[..i][k..] == log[k..i];
    OverloadedIff(cfg.threshold, Count(log[k..i], false), Count(log[k..i], true));
  }

  predicate ExceedsShare(failures: nat, threshold: real, total: nat) {
    failures as real > threshold * total as real
  }

  /** At least five outcomes, and more failures than the threshold's share of them. */
  lemma OverloadedIff(threshold: real, failures: nat, successes: nat)
    ensures Overloaded(threshold, failures, successes) <==>
            failures + successes >= 5 && ExceedsShare(failures, threshold, failures + successes)
  {
    if failures + successes >= 5 {
      ShareIff(failures as real, threshold, (failures + successes) as real);
    }
  }

  lemma ShareIff(f: real, threshold: real, total: real)
    requires total > 0.0
    ensures f / total > threshold <==> f > threshold * total
  {
    var share := f / total;
    assert share * total == f;
    if share > threshold {
      assert (share - threshold) * total > 0.0;
    } else {
      assert (threshold - share) * total >= 0.0;
    }
  }

  lemma TripTimes(cfg: Config, ops: seq<Op>, i: nat)
    requires i < |ops| && Trip(Log(cfg, ops)[i])
    ensures ops[i].Ask?
    ensures Log(cfg, ops)[i].checkedAt == ops[i].checkedAt && Log(cfg, ops)[i].trippedAt == ops[i].trippedAt
  {
    hide Overloaded, Log, Final;
    LogPrefix(cfg, ops, i);
  }

  /** Trips are at least one cooldown apart. */
  lemma TripsApart(cfg: Config, ops: seq<Op>, i: nat, j: nat)
    requires Clocked(ops) && i < j < |ops| && Trip(Log(cfg, ops)[i]) && Trip(Log(cfg, ops)[j])
    ensures Log(cfg, ops)[j].trippedAt - Log(cfg, ops)[i].trippedAt >= cfg.cooldown
  {
    hide Overloaded, Count, Log, Step, Final, SinceTrip;
    var log := Log(cfg, ops);
    TripTimes(cfg, ops, i);
    TripTimes(cfg, ops, j);
    AnswerLaw(cfg, ops, j);
    var k := SinceTrip(log[..j]);
    LastTripNotBefore(log[..j], i);
    assert log[..j][k - 1] == log[k - 1];
    TripTimes(cfg, ops, k - 1);
  }

  lemma LastTripNotBefore(log: seq<Seen>, i: nat)
    requires i < |log| && Trip(log[i])
    ensures SinceTrip(log) > i && Trip(log[SinceTrip(log) - 1])
  {
  }

  /** k trips need at least 5k recorded outcomes. */
  lemma {:induction false} OutcomesPerTrip(cfg: Config, ops: seq<Op>)
    ensures var log := Log(cfg, ops);
            var s := Final(cfg, ops);
            Count(log, true) + Count(log, false) >= 5 * Trips(log) + s.failures + s.successes
  {
    hide Rate;
    if ops != [] {
      var front, last := ops[..|ops| - 1], ops[|ops| - 1];
      OutcomesPerTrip(cfg, front);
      var o := Step(cfg, Final(cfg, front), last).1;
      CountSnoc(Log(cfg, front), o, true);
      CountSnoc(Log(cfg, front), o, false);
      assert (Log(cfg, front) + [o])[..|front|] == Log(cfg, front);
    }
  }
}
