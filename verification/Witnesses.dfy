/**
 Runs of the whole service in which a promise fails.

 Each is built act by act from the start of the service, so it is an input the service can produce.
 The states along the way are written out.
 */
module Witnesses {
  import opened Base
  import opened Keys
  import opened Ledger
  import opened Billing
  import opened Outcomes
  import opened Settlement
  import opened System
  import opened Erasure
  import opened Leaks
  import Q = Queue

  /** One more act of a run whose last state is known. */
  lemma Extend(acts: seq<Act>, b: Sys, act: Act, maxRetries: int) returns (more: seq<Act>)
    requires Play(acts, maxRetries) == b
    ensures Play(more, maxRetries) == Do(b, act, maxRetries) && more == acts + [act]
  {
    hide Do;
    more := acts + [act];
    assert more[..|more| - 1] == acts;
  }

  // ----- the states of a request that holds 10 of 100 credits -----

  const DEPOSIT := Row("u", Deposit, 100, 100, None, FreeKey("d"))

  function HoldOf(id: string, key: string, after: int): Row {
    Row("u", Hold, -10, after, Some(id), HoldKey(KeyRef(id, key)))
  }

  function Holder(key: string, phase: Phase): Call { Call("u", key, "/p", 10, true, phase) }

  function Waiting(key: string, phase: Phase): Call { Call("u", key, "/p", 10, false, phase) }

  const OK := Response(200, "")

  ghost function Funded(): Sys {
    START.(db := Db(map["u" := 100], [DEPOSIT], map[], map[]))
  }

  /** The balance was missed in the cache, read and cached. */
  ghost function Asked(key: string): Sys {
    Funded().(cache := map["u" := 100], calls := map["a" := Waiting(key, Seen(100))])
  }

  ghost function Reserved(key: string): Sys {
    Asked(key).(db := Db(map["u" := 90], [DEPOSIT, HoldOf("a", key, 90)], map[], map[]), cache := map["u" := 90],
                calls := map["a" := Holder(key, Published)])
  }

  ghost function Emitted(key: string): Sys {
    Reserved(key).(db := Db(map["u" := 90], [DEPOSIT, HoldOf("a", key, 90)],
                          map["a" := UsageLog("u", Pending, 10, 0, None, None)], map["a" := Session("u", 10, 0)]),
                 calls := map["a" := Holder(key, Answered(OK))],
                 queue := Q.Stream([Q.Event("a", "u", key, 10)], 0, map[], map[], []))
  }

  /** The event was delivered to a worker, and the expired session listed and read by the sweeper. */
  ghost function Racing(key: string, fault: bool): Sys {
    Emitted(key).(queue := Q.Stream([Q.Event("a", "u", key, 10)], 1, map[0 := 1], map[], []),
                  jobs := map[0 := Job(0, Working)],
                  sweeps := map[0 := Sweep("a", Got(if fault then 0 else 10))], now := 1)
  }

  lemma FundedRun(maxRetries: int) returns (acts: seq<Act>)
    ensures Play(acts, maxRetries) == Funded()
  {
    hide Play;
    assert Parse("d") == FreeKey("d");
    acts := NoActs(maxRetries);
    acts := Extend(acts, START, NewUser("u"), maxRetries);
    acts := Extend(acts, Do(START, NewUser("u"), maxRetries), TopUp("u", 100, "d"), maxRetries);
  }

  lemma NoActs(maxRetries: int) returns (acts: seq<Act>)
    ensures Play(acts, maxRetries) == START
  {
    acts := [];
  }

  lemma AskedRun(key: string, maxRetries: int) returns (acts: seq<Act>)
    ensures Play(acts, maxRetries) == Asked(key)
  {
    hide Play, SinceHold, ReserveNow, CacheKey;
    acts := FundedRun(maxRetries);
    var b := Funded();
    acts := Extend(acts, b, Gateway("a", Arrive("u", key, "/p", 10)), maxRetries);
    var b1 := b.(calls := map["a" := Waiting(key, Arrived)]);
    acts := Extend(acts, b1, Gateway("a", Lookup(false)), maxRetries);
    var b2 := b.(calls := map["a" := Waiting(key, Admitted)]);
    acts := Extend(acts, b2, Gateway("a", ReadCache), maxRetries);
    var b3 := b.(calls := map["a" := Waiting(key, Missed)]);
    acts := Extend(acts, b3, Gateway("a", Fetch), maxRetries);
    var b4 := b.(calls := map["a" := Waiting(key, Fetched(100))]);
    acts := Extend(acts, b4, Gateway("a", Fill(false)), maxRetries);
  }

  lemma ReservedRun(key: string, maxRetries: int) returns (acts: seq<Act>)
    ensures Play(acts, maxRetries) == Reserved(key)
  {
    hide Play, BeforeHold, CacheKey, KeyRef;
    acts := AskedRun(key, maxRetries);
    var b := Asked(key);
    acts := Extend(acts, b, Gateway("a", Reserve), maxRetries);
    var b1 := b.(db := Db(map["u" := 90], [DEPOSIT, HoldOf("a", key, 90)], map[], map[]),
                 calls := map["a" := Holder(key, HoldPlaced(90))]);
    assert Do(b, Gateway("a", Reserve), maxRetries) == b1;
    acts := Extend(acts, b1, Gateway("a", Publish(false)), maxRetries);
    assert Do(b1, Gateway("a", Publish(false)), maxRetries) == Reserved(key);
  }

  lemma EmittedRun(key: string, maxRetries: int) returns (acts: seq<Act>)
    ensures Play(acts, maxRetries) == Emitted(key)
  {
    hide Play, BeforeHold, ReserveNow, CacheKey, KeyRef;
    acts := ReservedRun(key, maxRetries);
    var b := Reserved(key);
    acts := Extend(acts, b, Gateway("a", Note), maxRetries);
    var b1 := b.(db := b.db.(logs := map["a" := UsageLog("u", Pending, 10, 0, None, None)]),
                 calls := map["a" := Holder(key, Logged)]);
    assert Do(b, Gateway("a", Note), maxRetries) == b1;
    acts := Extend(acts, b1, Gateway("a", Open(0)), maxRetries);
    var b2 := b1.(db := Emitted(key).db, calls := map["a" := Holder(key, Forwarded)]);
    assert Do(b1, Gateway("a", Open(0)), maxRetries) == b2;
    acts := Extend(acts, b2, Gateway("a", Answer(OK, false)), maxRetries);
    assert Do(b2, Gateway("a", Answer(OK, false)), maxRetries) == Emitted(key);
  }

  lemma RacingRun(key: string, fault: bool, maxRetries: int) returns (acts: seq<Act>)
    ensures Play(acts, maxRetries) == Racing(key, fault)
  {
    hide Play, OnGateway, AttemptNow, SweepNowWith, KeyRef;
    acts := EmittedRun(key, maxRetries);
    var b := Emitted(key);
    acts := Extend(acts, b, Tick(1), maxRetries);
    var b1 := b.(now := 1);
    acts := Extend(acts, b1, Work(0, Take), maxRetries);
    var b2 := b1.(queue := Racing(key, fault).queue, jobs := map[0 := Job(0, Working)]);
    assert Do(b1, Work(0, Take), maxRetries) == b2;
    acts := Extend(acts, b2, Sweeping(0, List("a")), maxRetries);
    var b3 := b2.(sweeps := map[0 := Sweep("a", Listed)]);
    assert Do(b2, Sweeping(0, List("a")), maxRetries) == b3;
    acts := Extend(acts, b3, Sweeping(0, ReadSession(fault)), maxRetries);
    assert Do(b3, Sweeping(0, ReadSession(fault)), maxRetries) == Racing(key, fault);
  }

  lemma RacingSums(key: string, fault: bool)
    ensures Captured(Racing(key, fault).db.rows, "a") == 0 && Released(Racing(key, fault).db.rows, "a") == 0
  {
    TotalZero(Racing(key, fault).db.rows, OfKind("a", Capture));
    TotalZero(Racing(key, fault).db.rows, OfKind("a", Release));
  }

  // ----- the sweeper settles after the worker -----

  /** A sweep that read its session before the worker's settlement commits after it. */
  lemma SweptAfterWork(key: string, price: nat, maxRetries: int) returns (acts: seq<Act>)
    requires price <= 10 && (price == 10 || (key != "" && key != "a"))
    ensures var b := Play(acts, maxRetries);
            && b.calls == map["a" := Holder(key, Answered(OK))]
            && Captured(b.db.rows, "a") == price && Released(b.db.rows, "a") == 20 - price
            && b.db.balances == map["u" := 110 - 2 * price]
  {
    hide Play, Captured, Released, Apply, Wired, Sound, OnGateway, Erase, EraseAll, Run, OnWork, OnSweep;
    acts := RacingRun(key, false, maxRetries);
    ghost var before := acts;
    var b := Racing(key, false);
    PlayWired(acts, maxRetries);
    RacingSums(key, false);
    var attempt, sweep := Work(0, Attempt(Some(price), Completed)), Sweeping(0, SweepNow);
    acts := Extend(acts, b, attempt, maxRetries);
    var b1 := Do(b, attempt, maxRetries);
    PlayWired(acts, maxRetries);
    acts := Extend(acts, b1, sweep, maxRetries);
    DoSim(b, attempt, maxRetries);
    DoSim(b1, sweep, maxRetries);
    RaceErases(key, price, maxRetries);
    RaceCommits(key, price);
    SweepAfterWorker(EraseAll(before, maxRetries), "a", price, Completed);
  }

  /** Which protocol steps the two acts are, and what they leave alone. */
  lemma RaceErases(key: string, price: nat, maxRetries: int)
    ensures var b := Racing(key, false);
            var attempt, sweep := Work(0, Attempt(Some(price), Completed)), Sweeping(0, SweepNow);
            var b1 := Do(b, attempt, maxRetries);
            && Erase(b, attempt) == Some(SettleUsage("a", price, Completed))
            && Erase(b1, sweep) == Some(SweepHold("a", 10))
            && b1.calls == b.calls && Do(b1, sweep, maxRetries).calls == b.calls
  {
    hide OnGateway, OnSweep, OnWork, CanSettle, AfterSettle, KeyRef;
    var b := Racing(key, false);
    AttemptKeeps(b, 0, price, maxRetries);
    SweepKeeps(OnWork(b, 0, Attempt(Some(price), Completed), maxRetries), 0);
  }

  lemma AttemptKeeps(b: Sys, j: nat, price: nat, maxRetries: int)
    ensures var c := OnWork(b, j, Attempt(Some(price), Completed), maxRetries);
            c.calls == b.calls && c.sweeps == b.sweeps && c.cache == b.cache
  {
    hide CanSettle, AfterSettle, CaptureRelease, Q.Ack, Q.Bury, Q.Deliver, Q.Reclaim, DeleteSession;
  }

  lemma SweepKeeps(b: Sys, j: nat)
    ensures var c := OnSweep(b, j, SweepNow); c.calls == b.calls && c.jobs == b.jobs && c.queue == b.queue
  {
    hide CanSettle, AfterSettle;
  }

  lemma RaceCommits(key: string, price: nat)
    requires price <= 10
    ensures var b := Racing(key, false);
            && Commits(Abs(b), "a", price) && Abs(b).requests["a"] == Request("u", key, 10)
            && KeyFree(b.db.rows, ReleaseKey("a"))
  {
    SettleGuard(Racing(key, false).db, "u", "a", 10, price, key);
  }

  /** With a client key the worker settles (3, 7) and the sweep still commits: 17 released of a hold of 10. */
  lemma ClientKeyReleasesTwice(maxRetries: int) returns (acts: seq<Act>)
    ensures var b := Play(acts, maxRetries);
            && "a" in b.calls && b.calls["a"].clientKey == "k" && b.calls["a"].hold == 10
            && Captured(b.db.rows, "a") == 3 && Released(b.db.rows, "a") == 17
  {
    hide Captured, Released, Play;
    acts := SweptAfterWork("k", 3, maxRetries);
  }

  /** Without one a full capture leaves the release key free, and the sweep gives the hold back: (10, 10). */
  lemma FullCaptureThenSweep(maxRetries: int) returns (acts: seq<Act>)
    ensures var b := Play(acts, maxRetries);
            && "a" in b.calls && b.calls["a"].clientKey == "" && b.calls["a"].hold == 10
            && Captured(b.db.rows, "a") == 10 && Released(b.db.rows, "a") == 10
  {
    hide Captured, Released, Play;
    acts := SweptAfterWork("", 10, maxRetries);
  }

  /** The other order: the sweep commits first, and the worker after it under the client key. */
  lemma WorkedAfterSweep(key: string, price: nat, maxRetries: int) returns (acts: seq<Act>)
    requires price <= 10 && key != "" && key != "a"
    ensures var b := Play(acts, maxRetries);
            && b.calls == map["a" := Holder(key, Answered(OK))]
            && Captured(b.db.rows, "a") == price && Released(b.db.rows, "a") == 20 - price
            && b.db.balances == map["u" := 110 - 2 * price]
  {
    hide Play, Captured, Released, Apply, Wired, Sound, OnGateway, Erase, EraseAll, Run, OnWork, OnSweep;
    acts := RacingRun(key, false, maxRetries);
    ghost var before := acts;
    var b := Racing(key, false);
    PlayWired(acts, maxRetries);
    RacingSums(key, false);
    var attempt, sweep := Work(0, Attempt(Some(price), Completed)), Sweeping(0, SweepNow);
    acts := Extend(acts, b, sweep, maxRetries);
    var b1 := Do(b, sweep, maxRetries);
    PlayWired(acts, maxRetries);
    acts := Extend(acts, b1, attempt, maxRetries);
    DoSim(b, sweep, maxRetries);
    DoSim(b1, attempt, maxRetries);
    SweepFirst(key, price, maxRetries);
    RaceCommits(key, price);
    RaceKeys(key);
    WorkerAfterSweep(EraseAll(before, maxRetries), "a", price, Completed);
  }

  lemma SweepFirst(key: string, price: nat, maxRetries: int)
    ensures var b := Racing(key, false);
            var attempt, sweep := Work(0, Attempt(Some(price), Completed)), Sweeping(0, SweepNow);
            var b1 := Do(b, sweep, maxRetries);
            && Erase(b, sweep) == Some(SweepHold("a", 10))
            && Erase(b1, attempt) == Some(SettleUsage("a", price, Completed))
            && b1.calls == b.calls && Do(b1, attempt, maxRetries).calls == b.calls
  {
    hide OnGateway, OnSweep, OnWork, CanSettle, AfterSettle, KeyRef;
    var b := Racing(key, false);
    SweepKeeps(b, 0);
    AttemptKeeps(OnSweep(b, 0, SweepNow), 0, price, maxRetries);
  }

  lemma RaceKeys(key: string)
    ensures var rows := Racing(key, false).db.rows;
            forall ref :: KeyFree(rows, CaptureKey(ref)) && KeyFree(rows, ReleaseKey(ref))
  {
  }

  /** With a client key, 17 of a hold of 10 are released in that order too. */
  lemma SweepThenWorkerReleasesTwice(maxRetries: int) returns (acts: seq<Act>)
    ensures var b := Play(acts, maxRetries);
            && "a" in b.calls && b.calls["a"].clientKey == "k" && b.calls["a"].hold == 10
            && Captured(b.db.rows, "a") == 3 && Released(b.db.rows, "a") == 17
  {
    hide Captured, Released, Play;
    acts := WorkedAfterSweep("k", 3, maxRetries);
  }

  // ----- a failed read of the session -----

  /** The sweeper settles nothing, deletes the session, and the hold is neither captured, released nor listed. */
  lemma FailedReadRun(maxRetries: int) returns (acts: seq<Act>)
    ensures var b := Play(acts, maxRetries);
            && "a" in b.calls && b.calls["a"].held && b.db.sessions == map[] && b.db.balances == map["u" := 90]
            && Captured(b.db.rows, "a") == 0 && Released(b.db.rows, "a") == 0
  {
    hide Play, OnGateway, OnWork, KeyRef, Captured, Released;
    acts := RacingRun("", true, maxRetries);
    RacingSums("", true);
    var b := Racing("", true);
    acts := Extend(acts, b, Sweeping(0, SweepNow), maxRetries);
    var b1 := Do(b, Sweeping(0, SweepNow), maxRetries);
    assert b1.sweeps[0].phase == Swept && b1.db.rows == b.db.rows && b1.db.sessions == b.db.sessions
        && b1.db.balances == map["u" := 90];
    acts := Extend(acts, b1, Sweeping(0, DeleteSwept), maxRetries);
    assert Do(b1, Sweeping(0, DeleteSwept), maxRetries).db == DeleteSession(b1.db, "a");
  }

  // ----- a copy to the dead letters that fails -----

  /** With at most one retry, a failed copy is acknowledged all the same: the event is in no queue any more. */
  lemma EventDropped(maxRetries: int) returns (acts: seq<Act>)
    requires maxRetries <= 1
    ensures var q := Play(acts, maxRetries).queue;
            q.stream != [] && q.cursor == |q.stream| && q.pending == map[] && q.dead == [] && q.acked == map[0 := Q.Lost]
  {
    hide Play, OnGateway, OnSweep, KeyRef, AttemptNow;
    acts := RacingRun("", false, maxRetries);
    var b := Racing("", false);
    acts := Extend(acts, b, Work(0, Attempt(None, Failed)), maxRetries);
    var b1 := b.(jobs := map[0 := Job(0, Failing)]);
    assert Do(b, Work(0, Attempt(None, Failed)), maxRetries) == b1;
    acts := Extend(acts, b1, Work(0, GiveUp(false, true)), maxRetries);
    var b2 := b.(jobs := map[0 := Job(0, Copied(false))]);
    assert Do(b1, Work(0, GiveUp(false, true)), maxRetries) == b2;
    acts := Extend(acts, b2, Work(0, AckDead(false)), maxRetries);
    var q := Do(b2, Work(0, AckDead(false)), maxRetries).queue;
    assert q.pending == map[];
  }

  // ----- a cached balance above the PostgreSQL balance -----

  /** An exact cache, and a settlement that captures the whole hold: 90 cached, 80 left. */
  lemma SettlementOutruns(maxRetries: int) returns (acts: seq<Act>)
    ensures var b := Play(acts, maxRetries);
            b.cache == map["u" := 90] && b.db.balances == map["u" := 80]
  {
    hide Play, OnGateway, OnSweep, OnWork, Sound, Wired, Apply, CanSettle, AfterSettle, KeyRef, Erase;
    acts := RacingRun("", false, maxRetries);
    ghost var before := acts;
    var b := Racing("", false);
    var attempt := Work(0, Attempt(Some(10), Completed));
    acts := Extend(acts, b, attempt, maxRetries);
    PlayWired(before, maxRetries);
    DoSim(b, attempt, maxRetries);
    RaceErases("", 10, maxRetries);
    RaceCommits("", 10);
    AttemptKeeps(b, 0, 10, maxRetries);
    WorkerStep(Abs(b), "a", 10, Completed);
    SettleMoves(b.db, "u", "a", 10, 0, Completed, "");
  }

  /** Two calls hold one after the other and publish in the opposite order: 90 cached, 80 left. */
  lemma OlderPublishWins(maxRetries: int) returns (acts: seq<Act>)
    ensures var b := Play(acts, maxRetries);
            b.cache == map["u" := 90] && b.db.balances == map["u" := 80]
  {
    hide Play, KeyRef, Asked;
    acts := BothHold(maxRetries);
    var b := Doubled(80, HoldPlaced(90), HoldPlaced(80), map["u" := 100]);
    acts := Extend(acts, b, Gateway("b", Publish(false)), maxRetries);
    var b1 := Doubled(80, HoldPlaced(90), Published, map["u" := 80]);
    PublishStep(b, "b", 80, maxRetries);
    acts := Extend(acts, b1, Gateway("a", Publish(false)), maxRetries);
    PublishStep(b1, "a", 90, maxRetries);
  }

  /** Reconciliation without auto-fix reads the balance, then after a hold the ledger, and caches what it read
      first: 100 cached, 90 left. */
  lemma AuditCachesStale(maxRetries: int) returns (acts: seq<Act>)
    ensures var b := Play(acts, maxRetries);
            b.cache == map["u" := 100] && b.db.balances == map["u" := 90]
  {
    hide Play, OnGateway, OnWork, OnSweep, KeyRef;
    acts := ReservedRun("", maxRetries);
    var b := Reserved("");
    acts := Extend(acts, b, Auditing("u", 1, 2, false), maxRetries);
    assert b.db.rows[..1] == [DEPOSIT] && b.db.rows[..2] == [DEPOSIT, HoldOf("a", "", 90)];
    TotalSnoc([], DEPOSIT, OfUser("u"));
    TotalSnoc([DEPOSIT], HoldOf("a", "", 90), OfUser("u"));
    assert [] + [DEPOSIT] == [DEPOSIT] && [DEPOSIT] + [HoldOf("a", "", 90)] == [DEPOSIT, HoldOf("a", "", 90)];
  }

  /** Calls "a" and "b" of the same user, both past ApplyHold. */
  ghost function Doubled(balance: int, a: Phase, b: Phase, cache: map<string, int>): Sys {
    START.(db := Db(map["u" := balance], [DEPOSIT, HoldOf("a", "", 90), HoldOf("b", "", 80)], map[], map[]), cache := cache,
           calls := map["a" := Holder("", a), "b" := Holder("", b)])
  }

  lemma PublishStep(b: Sys, id: string, left: int, maxRetries: int)
    requires id in b.calls && b.calls[id].phase == HoldPlaced(left)
    ensures Do(b, Gateway(id, Publish(false)), maxRetries)
         == b.(cache := b.cache[b.calls[id].user := left], calls := b.calls[id := b.calls[id].(phase := Published)])
  {
    hide BeforeHold, ReserveNow, CacheKey, Q.Emit, EventOf, InsertLog, InsertSession;
  }

  lemma BothAsk(maxRetries: int) returns (acts: seq<Act>)
    ensures Play(acts, maxRetries) == Asked("").(calls := map["a" := Waiting("", Seen(100)), "b" := Waiting("", Seen(100))])
  {
    hide Play, SinceHold, ReserveNow, CacheKey;
    acts := AskedRun("", maxRetries);
    var b := Asked("");
    acts := Extend(acts, b, Gateway("b", Arrive("u", "", "/p", 10)), maxRetries);
    var b1 := b.(calls := b.calls["b" := Waiting("", Arrived)]);
    acts := Extend(acts, b1, Gateway("b", Lookup(false)), maxRetries);
    var b2 := b.(calls := b.calls["b" := Waiting("", Admitted)]);
    assert Do(b1, Gateway("b", Lookup(false)), maxRetries) == b2;
    acts := Extend(acts, b2, Gateway("b", ReadCache), maxRetries);
  }

  lemma BothHold(maxRetries: int) returns (acts: seq<Act>)
    ensures Play(acts, maxRetries) == Doubled(80, HoldPlaced(90), HoldPlaced(80), map["u" := 100])
  {
    hide Play, BeforeHold, SinceHold, CacheKey;
    acts := BothAsk(maxRetries);
    var b := Asked("").(calls := map["a" := Waiting("", Seen(100)), "b" := Waiting("", Seen(100))]);
    acts := Extend(acts, b, Gateway("a", Reserve), maxRetries);
    var b1 := b.(db := Db(map["u" := 90], [DEPOSIT, HoldOf("a", "", 90)], map[], map[]),
                 calls := map["a" := Holder("", HoldPlaced(90)), "b" := Waiting("", Seen(100))]);
    assert Do(b, Gateway("a", Reserve), maxRetries) == b1;
    acts := Extend(acts, b1, Gateway("b", Reserve), maxRetries);
    assert Do(b1, Gateway("b", Reserve), maxRetries).db.rows == [DEPOSIT, HoldOf("a", "", 90), HoldOf("b", "", 80)];
  }

  // ----- a call that stops right after its hold -----

  /** The hold is placed, the call ends before its session is opened, and no continuation ever gives it back. */
  lemma HoldLeaks(maxRetries: int) returns (acts: seq<Act>)
    ensures var b := Play(acts, maxRetries);
            && b.calls == map["a" := Holder("", Closed)] && b.db.balances == map["u" := 90]
            && forall more: seq<Act> :: var c := Play(acts + more, maxRetries);
                                        "a" !in c.settled && "a" !in c.db.sessions && !HasSettlementRow(c.db.rows, "a")
  {
    hide Play, OnWork, OnSweep, OnAudit, BeforeHold, SinceHold, ReserveNow, KeyRef, HasSettlementRow, Opened;
    acts := ReservedRun("", maxRetries);
    var b := Reserved("");
    acts := Extend(acts, b, Gateway("a", Abort), maxRetries);
    assert b.calls["a" := Holder("", Closed)] == map["a" := Holder("", Closed)];
    UnlistedIffUnopened(acts, maxRetries, "a");
    forall more: seq<Act>
      ensures var c := Play(acts + more, maxRetries);
              "a" !in c.settled && "a" !in c.db.sessions && !HasSettlementRow(c.db.rows, "a")
    {
      HoldLeaksForever(acts, more, maxRetries, "a");
    }
  }

  // ----- reconciliation in between -----

  /** A deposit between the balance read and the ledger read, and another before the write: the stale sum is
      written back and the balance no longer equals the ledger. */
  lemma InterleavedReconcileDrifts(maxRetries: int) returns (acts: seq<Act>, first: Act, second: Act)
    ensures var s0 := Play(acts, maxRetries).db;
            var s1 := Play(acts + [first], maxRetries).db;
            var s2 := Play(acts + [first] + [second], maxRetries).db;
            "u" in s0.balances && Agrees(s2) && !Agrees(ReconcileTurn(s0, s1, s2, "u"))
  {
    hide Play, OnGateway, OnSweep, OnWork, UniqueKeys, RunningBalances, LedgerSum, RowsShaped, HoldsRecorded;
    acts := FundedRun(maxRetries);
    first, second := TopUp("u", 5, "e"), TopUp("u", 7, "f");
    var b := Funded();
    var once := Extend(acts, b, first, maxRetries);
    var b1 := Do(b, first, maxRetries);
    DepositMoves(b, 5, "e", maxRetries);
    var twice := Extend(once, b1, second, maxRetries);
    DepositMoves(b1, 7, "f", maxRetries);
    ErasedRun(acts, maxRetries);
    ErasedRun(once, maxRetries);
    ErasedRun(twice, maxRetries);
    StaleReconcile(b.db, b1.db, Do(b1, second, maxRetries).db, "u");
  }

  lemma DepositMoves(b: Sys, amount: nat, key: string, maxRetries: int)
    requires "u" in b.db.balances && b.db.balances["u"] >= 0 && KeyFree(b.db.rows, Parse(key))
    ensures var c := Do(b, TopUp("u", amount, key), maxRetries);
            && c.db.balances == b.db.balances["u" := b.db.balances["u"] + amount]
            && |c.db.rows| == |b.db.rows| + 1 && c.db.rows[..|b.db.rows|] == b.db.rows
            && c.db.rows[|b.db.rows|].key == Parse(key)
  {
    hide OnGateway, OnSweep, OnWork;
  }
}
