/**
 Settlement over time: when an attempt commits, why a repeated one cannot, how long a hold
 stays listed for the sweeper, what a failed read or a late sweep does, and what can lower a balance.
 */
module Settlement {
  import opened Base
  import opened Keys
  import opened Ledger
  import opened Billing
  import opened Outcomes

  // ----- the ledger only grows -----

  ghost predicate Later(s: Core, t: Core) {
    && s.db.rows <= t.db.rows
    && (forall id | id in s.requests :: id in t.requests && t.requests[id] == s.requests[id])
    && s.settled <= t.settled
  }

  lemma ApplyLater(s: Core, step: Step)
    ensures Later(s, Apply(s, step))
  {
    hide CanSettle, CanHold, CanDeposit;
    match step
    case SettleUsage(id, price, status) =>
      if id in s.requests {
        var req := s.requests[id];
        var (capture, release) := CaptureRelease(req.hold, price);
        SettleLater(s, req.user, id, capture, release, status, req.clientKey);
      }
    case SweepHold(id, seen) =>
      if id in s.db.logs {
        SettleLater(s, s.db.logs[id].user, id, 0, seen, Failed, "");
      }
    case _ =>
  }

  lemma SettleLater(s: Core, user: string, id: string, capture: int, release: int, status: Status, clientKey: string)
    ensures Later(s, Settle(s, user, id, capture, release, status, clientKey))
  {
    hide CanSettle, AfterSettle;
    if CanSettle(s.db, user, id, capture, release, clientKey) {
      CanSettleUser(s.db, user, id, capture, release, clientKey);
      SettleFrame(s.db, user, id, capture, release, status, clientKey);
    }
  }

  lemma {:induction false} RunLater(s: Core, steps: seq<Step>)
    ensures Later(s, RunFrom(s, steps))
  {
    hide Apply;
    if steps != [] {
      var before := RunFrom(s, steps[..|steps| - 1]);
      RunLater(s, steps[..|steps| - 1]);
      ApplyLater(before, steps[|steps| - 1]);
    }
  }

  // ----- at-least-once delivery, exactly-once effect -----

  /** The attempt an event with a deterministic price makes, once or many times. */
  ghost predicate IsAttempt(step: Step, id: string, price: nat) {
    step.SettleUsage? && step.id == id && step.price == price
  }

  ghost predicate Commits(s: Core, id: string, price: nat) {
    && id in s.requests
    && var req := s.requests[id];
       var (capture, release) := CaptureRelease(req.hold, price);
       CanSettle(s.db, req.user, id, capture, release, req.clientKey)
  }

  /** One of the keys the attempt writes is already on the ledger. */
  ghost predicate Spent(s: Core, id: string, price: nat) {
    && id in s.requests
    && var req := s.requests[id];
       var (capture, release) := CaptureRelease(req.hold, price);
       var ref := KeyRef(id, req.clientKey);
       (capture > 0 && !KeyFree(s.db.rows, CaptureKey(ref))) || (release > 0 && !KeyFree(s.db.rows, ReleaseKey(ref)))
  }

  lemma KeyStaysUsed(rows: seq<Row>, more: seq<Row>, key: Key)
    requires rows <= more && !KeyFree(rows, key)
    ensures !KeyFree(more, key)
  {
    var i :| 0 <= i < |rows| && rows[i].key == key;
    assert more[i] == rows[i];
  }

  lemma SpentStays(s: Core, t: Core, id: string, price: nat)
    requires Spent(s, id, price) && Later(s, t)
    ensures Spent(t, id, price)
  {
    var ref := KeyRef(id, s.requests[id].clientKey);
    if !KeyFree(s.db.rows, CaptureKey(ref)) {
      KeyStaysUsed(s.db.rows, t.db.rows, CaptureKey(ref));
    }
    if !KeyFree(s.db.rows, ReleaseKey(ref)) {
      KeyStaysUsed(s.db.rows, t.db.rows, ReleaseKey(ref));
    }
  }

  /** capture + release == hold > 0, so a committed attempt leaves at least one of its keys behind. */
  lemma CommitSpends(s: Core, id: string, price: nat, status: Status)
    requires Commits(s, id, price) && s.requests[id].hold > 0
    ensures Spent(Apply(s, SettleUsage(id, price, status)), id, price)
  {
    var req := s.requests[id];
    var (capture, release) := CaptureRelease(req.hold, price);
    var ref := KeyRef(id, req.clientKey);
    var t := Apply(s, SettleUsage(id, price, status));
    var n := |s.db.rows|;
    if capture > 0 {
      assert t.db.rows[n].key == CaptureKey(ref);
    } else {
      assert t.db.rows[n].key == ReleaseKey(ref);
    }
  }

  lemma SpentRollsBack(s: Core, id: string, price: nat, status: Status)
    requires Spent(s, id, price)
    ensures Apply(s, SettleUsage(id, price, status)) == s
  {
  }

  /** The run without the repeated attempts. */
  ghost function WithoutAttempts(steps: seq<Step>, id: string, price: nat): seq<Step> {
    if steps == [] then []
    else
      var front := WithoutAttempts(steps[..|steps| - 1], id, price);
      if IsAttempt(steps[|steps| - 1], id, price) then front else front + [steps[|steps| - 1]]
  }

  lemma {:induction false} RepeatsChangeNothing(s: Core, steps: seq<Step>, id: string, price: nat)
    requires Spent(s, id, price)
    ensures RunFrom(s, steps) == RunFrom(s, WithoutAttempts(steps, id, price))
  {
    hide Apply, Spent;
    if steps != [] {
      var front, last := steps[..|steps| - 1], steps[|steps| - 1];
      RepeatsChangeNothing(s, front, id, price);
      if IsAttempt(last, id, price) {
        RunLater(s, front);
        SpentStays(s, RunFrom(s, front), id, price);
        SpentRollsBack(RunFrom(s, front), id, price, last.status);
      } else {
        RunSnoc(s, WithoutAttempts(front, id, price), last);
      }
    }
  }

  /** Once one delivery of an event has committed, redeliveries and replays of it anywhere in the rest of
      the run can be erased without changing any later state: ledger, balances, logs and sessions. */
  lemma ExactlyOnce(before: seq<Step>, id: string, price: nat, status: Status, after: seq<Step>)
    requires Commits(Run(before), id, price)
    ensures var t := Apply(Run(before), SettleUsage(id, price, status));
            RunFrom(t, after) == RunFrom(t, WithoutAttempts(after, id, price))
  {
    hide Apply, Commits, Spent;
    Reachable(before);
    CommitKnown(Run(before), id, price);
    CommitSpends(Run(before), id, price, status);
    RepeatsChangeNothing(Apply(Run(before), SettleUsage(id, price, status)), after, id, price);
  }

  lemma CommitKnown(s: Core, id: string, price: nat)
    requires Sound(s) && Commits(s, id, price)
    ensures id in s.requests && s.requests[id].hold > 0
  {
  }

  // ----- when settlements commit -----

  /** A worker attempt commits exactly when its keys are fresh and the balance covers 2*capture - hold. */
  lemma WorkerCommits(steps: seq<Step>, id: string, price: nat)
    requires id in Run(steps).requests
    ensures var s := Run(steps);
            var req := s.requests[id];
            var capture := Min(price, req.hold);
            var ref := KeyRef(id, req.clientKey);
            req.user in s.db.balances &&
            (Commits(s, id, price) <==>
              && (capture > 0 ==> KeyFree(s.db.rows, CaptureKey(ref)))
              && (capture < req.hold ==> KeyFree(s.db.rows, ReleaseKey(ref)))
              && s.db.balances[req.user] >= 2 * capture - req.hold)
  {
    var s := Run(steps);
    Reachable(steps);
    SettleGuard(s.db, s.requests[id].user, id, s.requests[id].hold, Min(price, s.requests[id].hold), s.requests[id].clientKey);
  }

  /** Sweeping a listed session commits exactly when its release key is unused; then the user gets the
      whole hold back and the session can be closed. */
  lemma SweepCommits(steps: seq<Step>, id: string)
    requires id in Run(steps).db.sessions
    ensures var s := Run(steps);
            var h := s.db.sessions[id].hold;
            var t := Apply(s, SweepHold(id, h));
            && id in s.requests && s.requests[id].user in s.db.balances && h == s.requests[id].hold > 0
            && (KeyFree(s.db.rows, ReleaseKey(id)) ==>
                 && id in t.settled
                 && t.db.balances == s.db.balances[s.requests[id].user := s.db.balances[s.requests[id].user] + h]
                 && Released(t.db.rows, id) == Released(s.db.rows, id) + h
                 && id !in Apply(t, CloseSession(id)).db.sessions)
            && (!KeyFree(s.db.rows, ReleaseKey(id)) ==> t == s)
  {
    hide Released, UniqueKeys, RunningBalances, LedgerSum, RowsShaped, HoldsRecorded;
    var s := Run(steps);
    Reachable(steps);
    if KeyFree(s.db.rows, ReleaseKey(id)) {
      var user, h := s.db.logs[id].user, s.db.sessions[id].hold;
      SettleMoves(s.db, user, id, 0, h, Failed, "");
      KindSettle(s.db, user, id, 0, h, Failed, "");
    }
  }

  /** A committed settlement adds its capture and its release to the request's sums. */
  lemma KindSettle(db: Db, user: string, id: string, capture: int, release: int, status: Status, clientKey: string)
    requires user in db.balances && 0 <= capture && 0 <= release
    ensures Captured(AfterSettle(db, user, id, capture, release, status, clientKey).rows, id) == Captured(db.rows, id) + capture
    ensures Released(AfterSettle(db, user, id, capture, release, status, clientKey).rows, id) == Released(db.rows, id) + release
  {
    hide Total;
    var ref := KeyRef(id, clientKey);
    var mid := AfterCapture(db, user, id, capture, ref);
    if capture > 0 {
      var row := Row(user, Capture, -capture, db.balances[user] - capture, Some(id), CaptureKey(ref));
      TotalSnoc(db.rows, row, OfKind(id, Capture));
      TotalSnoc(db.rows, row, OfKind(id, Release));
    }
    if release > 0 {
      var row := Row(user, Release, release, mid.balances[user] + release, Some(id), ReleaseKey(ref));
      TotalSnoc(mid.rows, row, OfKind(id, Capture));
      TotalSnoc(mid.rows, row, OfKind(id, Release));
    }
  }

  /** With a client key the sweeper's fresh key proves nothing about the worker: a committing sweep keeps
      the request within its hold exactly when nothing had been released before. */
  lemma SweepWithinHold(steps: seq<Step>, id: string)
    requires id in Run(steps).db.sessions && KeyFree(Run(steps).db.rows, ReleaseKey(id))
    ensures var s := Run(steps);
            var t := Apply(s, SweepHold(id, s.db.sessions[id].hold));
            && id in s.requests
            && (Released(t.db.rows, id) <= s.requests[id].hold <==> Released(s.db.rows, id) == 0)
            && (KeyRef(id, s.requests[id].clientKey) == id ==> Released(s.db.rows, id) == 0)
  {
    hide Released, Apply, Net, Captured, Held;
    var s := Run(steps);
    SweepCommits(steps, id);
    RequestOutcome(steps, id);
    if KeyRef(id, s.requests[id].clientKey) == id {
      Reachable(steps);
      HoldPositive(s, id);
      KindsByKey(s.requests, s.db.rows, id);
      NetFresh(s.db.rows, id, ReleaseKey(id));
    }
  }

  // ----- how long a hold stays listed -----

  lemma ApplyKeepsListed(s: Core, step: Step, id: string)
    requires id in s.db.sessions && id !in Apply(s, step).settled
    ensures id in Apply(s, step).db.sessions && Apply(s, step).db.sessions[id] == s.db.sessions[id]
  {
    hide CanSettle, CanHold, CanDeposit;
  }

  /** Once its session row exists, a hold stays listed, unchanged, until some settlement of it commits. */
  lemma {:induction false} ListedUntilSettled(s: Core, steps: seq<Step>, id: string)
    requires id in s.db.sessions && id !in RunFrom(s, steps).settled
    ensures id in RunFrom(s, steps).db.sessions && RunFrom(s, steps).db.sessions[id] == s.db.sessions[id]
  {
    hide Apply;
    if steps != [] {
      var front, last := steps[..|steps| - 1], steps[|steps| - 1];
      ApplyLater(RunFrom(s, front), last);
      ListedUntilSettled(s, front, id);
      ApplyKeepsListed(RunFrom(s, front), last, id);
    }
  }

  ghost predicate HasSettlementRow(rows: seq<Row>, id: string) {
    exists i | 0 <= i < |rows| :: SettlementRow(rows[i], id)
  }

  ghost predicate SettlementRow(row: Row, id: string) {
    row.ref == Some(id) && (row.kind == Capture || row.kind == Release)
  }

  /** A settlement of the request that commits and is not a sweep that read no hold. */
  ghost predicate SettlesForReal(s: Core, step: Step, id: string) {
    match step
    case SettleUsage(x, price, _) => x == id && Commits(s, id, price)
    case SweepHold(x, seen) =>
      && x == id && seen != 0 && id in s.requests && id in s.db.logs && seen == s.requests[id].hold
      && CanSettle(s.db, s.db.logs[id].user, id, 0, seen, "")
    case _ => false
  }

  lemma RowSnoc(rows: seq<Row>, row: Row, id: string)
    ensures HasSettlementRow(rows + [row], id) <==> HasSettlementRow(rows, id) || SettlementRow(row, id)
  {
    if HasSettlementRow(rows, id) {
      var i :| 0 <= i < |rows| && SettlementRow(rows[i], id);
      assert (rows + [row])[i] == rows[i];
    }
    if SettlementRow(row, id) {
      assert (rows + [row])[|rows|] == row;
    }
  }

  /** A settlement leaves a row for its own request, if it moves anything, and for no other. */
  lemma SettleRows(db: Db, user: string, id: string, capture: int, release: int, status: Status, clientKey: string, x: string)
    requires user in db.balances
    ensures HasSettlementRow(AfterSettle(db, user, id, capture, release, status, clientKey).rows, x) <==>
            HasSettlementRow(db.rows, x) || (x == id && (capture > 0 || release > 0))
  {
    hide HasSettlementRow;
    var ref := KeyRef(id, clientKey);
    var mid := AfterCapture(db, user, id, capture, ref);
    if capture > 0 {
      RowSnoc(db.rows, Row(user, Capture, -capture, db.balances[user] - capture, Some(id), CaptureKey(ref)), x);
    }
    if release > 0 {
      RowSnoc(mid.rows, Row(user, Release, release, mid.balances[user] + release, Some(id), ReleaseKey(ref)), x);
    }
  }

  /** One step gives a request a settlement row exactly when it settles it for real. */
  lemma StepRows(s: Core, step: Step, id: string)
    requires Sound(s)
    ensures HasSettlementRow(Apply(s, step).db.rows, id) <==> HasSettlementRow(s.db.rows, id) || SettlesForReal(s, step, id)
  {
    hide HasSettlementRow, Agrees, RowsShaped, HoldsRecorded, CanSettle, AfterSettle, CanHold, CanDeposit;
    match step
    case DepositCredits(u, amount, key) =>
      if CanDeposit(s.db, u, amount, Parse(key)) {
        DepositRow(s.db, u, amount, Parse(key), id);
      }
    case PlaceHold(x, req) =>
      var key := HoldKey(KeyRef(x, req.clientKey));
      if CanHold(s.db, req.user, req.hold, key) {
        HoldRow(s.db, req.user, req.hold, x, key, id);
      }
    case SettleUsage(x, price, status) =>
      if x in s.requests {
        var req := s.requests[x];
        var (capture, release) := CaptureRelease(req.hold, price);
        SettleRows(s.db, req.user, x, capture, release, status, req.clientKey, id);
      }
    case SweepHold(x, seen) =>
      if x in s.requests && x in s.db.logs {
        SettleRows(s.db, s.db.logs[x].user, x, 0, seen, Failed, "", id);
      }
    case _ =>
  }

  lemma DepositRow(db: Db, user: string, amount: int, key: Key, id: string)
    requires CanDeposit(db, user, amount, key)
    ensures HasSettlementRow(AfterDeposit(db, user, amount, key).rows, id) <==> HasSettlementRow(db.rows, id)
  {
    RowSnoc(db.rows, Row(user, Deposit, amount, db.balances[user] + amount, None, key), id);
  }

  lemma HoldRow(db: Db, user: string, hold: int, x: string, key: Key, id: string)
    requires CanHold(db, user, hold, key)
    ensures HasSettlementRow(AfterHold(db, user, hold, x, key).rows, id) <==> HasSettlementRow(db.rows, id)
  {
    RowSnoc(db.rows, Row(user, Hold, -hold, db.balances[user] - hold, Some(x), key), id);
  }

  ghost predicate SettledForReal(steps: seq<Step>, id: string) {
    exists k | 0 <= k < |steps| :: SettlesForReal(Run(steps[..k]), steps[k], id)
  }

  /** After any run a request has a capture or release row exactly when some committed settlement of it was not
      a sweep that read no hold: a failed read is the only way to settle a hold without moving it. */
  lemma {:induction false} SettledHasRow(steps: seq<Step>, id: string)
    ensures HasSettlementRow(Run(steps).db.rows, id) <==> SettledForReal(steps, id)
    ensures HasSettlementRow(Run(steps).db.rows, id) ==> id in Run(steps).settled
  {
    hide Apply, HasSettlementRow, Sound, SettlesForReal, SettledForReal;
    if steps == [] {
      NothingSettled(id);
    } else {
      var n := |steps| - 1;
      var front, last := steps[..n], steps[n];
      SettledHasRow(front, id);
      Reachable(front);
      StepRows(Run(front), last, id);
      RealSnoc(steps, id);
      ApplyLater(Run(front), last);
      if SettlesForReal(Run(front), last, id) {
        RealSettles(Run(front), last, id);
      }
    }
  }

  lemma NothingSettled(id: string)
    ensures !HasSettlementRow(Run([]).db.rows, id) && !SettledForReal([], id)
  {
  }

  lemma RealSettles(s: Core, step: Step, id: string)
    requires SettlesForReal(s, step, id)
    ensures id in Apply(s, step).settled
  {
    hide CanSettle, AfterSettle;
  }

  lemma RealSnoc(steps: seq<Step>, id: string)
    requires steps != []
    ensures var n := |steps| - 1;
            SettledForReal(steps, id) <==> SettledForReal(steps[..n], id) || SettlesForReal(Run(steps[..n]), steps[n], id)
  {
    hide SettlesForReal, Run;
    var n := |steps| - 1;
    var front := steps[..n];
    if SettledForReal(front, id) {
      var k :| 0 <= k < |front| && SettlesForReal(Run(front[..k]), front[k], id);
      assert front[..k] == steps[..k] && front[k] == steps[k];
    }
    if SettledForReal(steps, id) {
      var k :| 0 <= k < |steps| && SettlesForReal(Run(steps[..k]), steps[k], id);
      if k < n {
        assert front[..k] == steps[..k] && front[k] == steps[k];
      }
    }
  }

  /** The step that first settles a request leaves a row of it exactly when it is not a sweep that read no hold;
      in particular every listed, unsettled hold is lost by such a sweep. */
  lemma FirstSettlementHasRow(steps: seq<Step>, step: Step, id: string)
    requires id !in Run(steps).settled && id in Apply(Run(steps), step).settled
    ensures HasSettlementRow(Apply(Run(steps), step).db.rows, id) <==> step != SweepHold(id, 0)
  {
    hide HasSettlementRow, SettledForReal, Run;
    SettledHasRow(steps, id);
    Reachable(steps);
    StepRows(Run(steps), step, id);
    NewlySettled(Run(steps), step, id);
  }

  lemma NewlySettled(s: Core, step: Step, id: string)
    requires id !in s.settled && id in Apply(s, step).settled
    ensures step != SweepHold(id, 0) <==> SettlesForReal(s, step, id)
  {
    hide CanSettle, AfterSettle;
  }

  /** A sweep that read no hold settles any listed session of any run, and the hold is then neither captured, nor
      released, nor listed once the session is deleted. */
  lemma FailedReadLosesHold(steps: seq<Step>, id: string)
    requires id in Run(steps).db.sessions && id !in Run(steps).settled
    ensures var t := Apply(Run(steps), SweepHold(id, 0));
            && id in t.settled && !HasSettlementRow(t.db.rows, id) && t.db.balances == Run(steps).db.balances
            && id !in Apply(t, CloseSession(id)).db.sessions
  {
    hide HasSettlementRow, Run, UniqueKeys, RunningBalances, RowsShaped, HoldsRecorded;
    var s := Run(steps);
    Reachable(steps);
    SettleMoves(s.db, s.db.logs[id].user, id, 0, 0, Failed, "");
    assert s.db.balances[s.db.logs[id].user := s.db.balances[s.db.logs[id].user]] == s.db.balances;
    FirstSettlementHasRow(steps, SweepHold(id, 0), id);
  }

  // ----- a sweep after the worker -----

  /** The worker leaves the sweeper's key alone exactly when the two use different keys or nothing is released. */
  lemma SweeperKeyAfter(db: Db, user: string, id: string, capture: int, release: int, status: Status, clientKey: string)
    requires user in db.balances
    ensures KeyFree(AfterSettle(db, user, id, capture, release, status, clientKey).rows, ReleaseKey(id)) <==>
            KeyFree(db.rows, ReleaseKey(id)) && (KeyRef(id, clientKey) != id || release <= 0)
  {
    hide KeyFree, KeyRef;
    var ref := KeyRef(id, clientKey);
    var mid := AfterCapture(db, user, id, capture, ref);
    if capture > 0 {
      KeyFreeSnoc(db.rows, Row(user, Capture, -capture, db.balances[user] - capture, Some(id), CaptureKey(ref)), ReleaseKey(id));
    }
    if release > 0 {
      KeyFreeSnoc(mid.rows, Row(user, Release, release, mid.balances[user] + release, Some(id), ReleaseKey(ref)), ReleaseKey(id));
    }
  }

  /** A sweep that runs after a committed worker settlement commits too exactly when its release key was unused and
      the worker did not use it: with a client key, or after a full capture.  Then 2*hold - capture has been released. */
  lemma SweepAfterWorker(steps: seq<Step>, id: string, price: nat, status: Status)
    requires Commits(Run(steps), id, price) && id in Run(steps).db.logs
    ensures var s := Run(steps);
            var req := s.requests[id];
            var capture := Min(price, req.hold);
            var t := Apply(s, SettleUsage(id, price, status));
            var u := Apply(t, SweepHold(id, req.hold));
            && req.user in s.db.balances
            && Captured(u.db.rows, id) == Captured(s.db.rows, id) + capture
            && (if KeyFree(s.db.rows, ReleaseKey(id)) && (KeyRef(id, req.clientKey) != id || price >= req.hold)
                then && Released(u.db.rows, id) == Released(s.db.rows, id) + 2 * req.hold - capture
                     && u.db.balances == s.db.balances[req.user := s.db.balances[req.user] + 2 * (req.hold - capture)]
                else && u == t && Released(u.db.rows, id) == Released(s.db.rows, id) + req.hold - capture
                     && u.db.balances == s.db.balances[req.user := s.db.balances[req.user] + req.hold - 2 * capture])
  {
    hide Run, Captured, Released, KeyFree, KeyRef, Apply, Sound, CanSettle;
    Reachable(steps);
    WorkerEffect(Run(steps), id, price, status);
    SweepEffect(Apply(Run(steps), SettleUsage(id, price, status)), id);
  }

  /** What a committed worker settlement does to its request's sums, its user's balance and the sweeper's key. */
  lemma WorkerEffect(s: Core, id: string, price: nat, status: Status)
    requires Sound(s) && Commits(s, id, price) && id in s.db.logs
    ensures var req := s.requests[id];
            var (capture, release) := CaptureRelease(req.hold, price);
            var t := Apply(s, SettleUsage(id, price, status));
            && Sound(t) && t.requests == s.requests && id in t.db.logs && req.user in s.db.balances
            && t.db.balances == s.db.balances[req.user := s.db.balances[req.user] + release - capture]
            && Captured(t.db.rows, id) == Captured(s.db.rows, id) + capture
            && Released(t.db.rows, id) == Released(s.db.rows, id) + release
            && (KeyFree(t.db.rows, ReleaseKey(id)) <==>
                  KeyFree(s.db.rows, ReleaseKey(id)) && (KeyRef(id, req.clientKey) != id || release <= 0))
  {
    hide Captured, Released, KeyFree, KeyRef, AfterSettle, Apply, CanSettle, Sound;
    var req := s.requests[id];
    var (capture, release) := CaptureRelease(req.hold, price);
    RequestFacts(s, id);
    ApplyKeeps(s, SettleUsage(id, price, status));
    WorkerStep(s, id, price, status);
    SettleMoves(s.db, req.user, id, capture, release, status, req.clientKey);
    KindSettle(s.db, req.user, id, capture, release, status, req.clientKey);
    SettleFrame(s.db, req.user, id, capture, release, status, req.clientKey);
    SweeperKeyAfter(s.db, req.user, id, capture, release, status, req.clientKey);
  }

  /** A sweep with the request's hold, which commits exactly when its release key is unused. */
  lemma SweepEffect(s: Core, id: string)
    requires Sound(s) && id in s.requests && id in s.db.logs
    ensures var req := s.requests[id];
            var u := Apply(s, SweepHold(id, req.hold));
            && req.user in s.db.balances
            && Captured(u.db.rows, id) == Captured(s.db.rows, id)
            && (if KeyFree(s.db.rows, ReleaseKey(id))
                then && u.db.balances == s.db.balances[req.user := s.db.balances[req.user] + req.hold]
                     && Released(u.db.rows, id) == Released(s.db.rows, id) + req.hold
                else u == s)
  {
    hide Captured, Released, KeyFree, AfterSettle, Apply, Sound;
    var req := s.requests[id];
    RequestFacts(s, id);
    SweepStep(s, id);
    SettleMoves(s.db, req.user, id, 0, req.hold, Failed, "");
    KindSettle(s.db, req.user, id, 0, req.hold, Failed, "");
  }

  /** A sweep uses up one key and no other. */
  lemma KeysAfterSweep(db: Db, user: string, id: string, hold: int, key: Key)
    requires user in db.balances && hold > 0
    ensures KeyFree(AfterSettle(db, user, id, 0, hold, Failed, "").rows, key) <==> KeyFree(db.rows, key) && key != ReleaseKey(id)
  {
    hide KeyFree;
    KeyFreeSnoc(db.rows, Row(user, Release, hold, db.balances[user] + hold, Some(id), ReleaseKey(id)), key);
  }

  /** The mirror of SweepAfterWorker.  After a committed sweep a worker settlement commits exactly when the keys it
      writes are free, the sweeper did not use its release key, and the balance with the returned hold covers it:
      without a client key a swept request's partial capture can never commit.  If it commits,
      2*hold - capture has been released. */
  lemma WorkerAfterSweep(steps: seq<Step>, id: string, price: nat, status: Status)
    requires id in Run(steps).requests && id in Run(steps).db.logs && KeyFree(Run(steps).db.rows, ReleaseKey(id))
    ensures var s := Run(steps);
            var req := s.requests[id];
            var ref := KeyRef(id, req.clientKey);
            var capture := Min(price, req.hold);
            var t := Apply(s, SweepHold(id, req.hold));
            var u := Apply(t, SettleUsage(id, price, status));
            && req.user in s.db.balances
            && (Commits(t, id, price) <==>
                  && (capture > 0 ==> KeyFree(s.db.rows, CaptureKey(ref)))
                  && (capture < req.hold ==> ref != id && KeyFree(s.db.rows, ReleaseKey(ref)))
                  && s.db.balances[req.user] >= 2 * (capture - req.hold))
            && (if Commits(t, id, price)
                then && Captured(u.db.rows, id) == Captured(s.db.rows, id) + capture
                     && Released(u.db.rows, id) == Released(s.db.rows, id) + 2 * req.hold - capture
                     && u.db.balances == s.db.balances[req.user := s.db.balances[req.user] + 2 * (req.hold - capture)]
                else && u == t && Released(u.db.rows, id) == Released(s.db.rows, id) + req.hold
                     && u.db.balances == s.db.balances[req.user := s.db.balances[req.user] + req.hold])
  {
    hide Run, Captured, Released, KeyFree, KeyRef, Apply, Sound, CanSettle, AfterSettle;
    var s := Run(steps);
    var req := s.requests[id];
    Reachable(steps);
    RequestFacts(s, id);
    SweepEffect(s, id);
    SweepStep(s, id);
    var t := Apply(s, SweepHold(id, req.hold));
    ApplyKeeps(s, SweepHold(id, req.hold));
    SettleFrame(s.db, req.user, id, 0, req.hold, Failed, "");
    var ref := KeyRef(id, req.clientKey);
    KeysAfterSweep(s.db, req.user, id, req.hold, CaptureKey(ref));
    KeysAfterSweep(s.db, req.user, id, req.hold, ReleaseKey(ref));
    SettleGuard(t.db, req.user, id, req.hold, Min(price, req.hold), req.clientKey);
    if Commits(t, id, price) {
      WorkerEffect(t, id, price, status);
    } else {
      WorkerRefused(t, id, price, status);
    }
  }

  lemma WorkerRefused(s: Core, id: string, price: nat, status: Status)
    requires !Commits(s, id, price)
    ensures Apply(s, SettleUsage(id, price, status)) == s
  {
    hide CanSettle, AfterSettle;
  }

  lemma RequestFacts(s: Core, id: string)
    requires Sound(s) && id in s.requests && id in s.db.logs
    ensures s.requests[id].hold > 0 && s.requests[id].user in s.db.balances && s.db.balances[s.requests[id].user] >= 0
    ensures s.db.logs[id].user == s.requests[id].user
  {
  }

  lemma WorkerStep(s: Core, id: string, price: nat, status: Status)
    requires Commits(s, id, price)
    ensures var req := s.requests[id];
            var (capture, release) := CaptureRelease(req.hold, price);
            Apply(s, SettleUsage(id, price, status))
            == s.(db := AfterSettle(s.db, req.user, id, capture, release, status, req.clientKey), settled := s.settled + {id})
  {
    hide CanSettle, AfterSettle;
  }

  /** A sweep with the hold commits exactly when its release key is unused. */
  lemma SweepStep(s: Core, id: string)
    requires id in s.requests && id in s.db.logs && s.requests[id].hold > 0
    requires s.db.logs[id].user in s.db.balances && s.db.balances[s.db.logs[id].user] >= 0
    ensures var h := s.requests[id].hold;
            Apply(s, SweepHold(id, h))
            == if KeyFree(s.db.rows, ReleaseKey(id))
               then s.(db := AfterSettle(s.db, s.db.logs[id].user, id, 0, h, Failed, ""), settled := s.settled + {id})
               else s
  {
    SettleGuard(s.db, s.db.logs[id].user, id, s.requests[id].hold, 0, "");
    hide AfterSettle;
  }

  // ----- what can lower a balance -----

  /** The step takes `amount` from the user, and the balance covers it. */
  ghost predicate Debits(s: Core, step: Step, user: string, amount: int) {
    && user in s.db.balances && 0 < amount <= s.db.balances[user]
    && match step
       case PlaceHold(_, req) => req.user == user && amount == req.hold
       case SettleUsage(id, price, _) =>
         id in s.requests && s.requests[id].user == user && amount == 2 * Min(price, s.requests[id].hold) - s.requests[id].hold
       case DepositCredits(u, deposit, _) => u == user && amount == -deposit
       case _ => false
  }

  /** A balance falls only by a hold it covers, by a settlement that captures more than it releases, or by a
      negative deposit, and by exactly that amount. */
  lemma EveryDebitIsCovered(s: Core, step: Step, user: string)
    requires Sound(s) && user in s.db.balances
    ensures var t := Apply(s, step);
            && user in t.db.balances && t.db.balances[user] >= 0
            && (t.db.balances[user] < s.db.balances[user] ==> Debits(s, step, user, s.db.balances[user] - t.db.balances[user]))
  {
    hide UniqueKeys, RunningBalances, RowsShaped, HoldsRecorded, AfterSettle, CanSettle, KeyFree, LedgerSum;
    ApplyKeeps(s, step);
    match step
    case SettleUsage(id, price, status) =>
      if Commits(s, id, price) {
        var req := s.requests[id];
        var (capture, release) := CaptureRelease(req.hold, price);
        SettleMoves(s.db, req.user, id, capture, release, status, req.clientKey);
      }
    case SweepHold(id, seen) =>
      if id in s.requests && id in s.db.logs {
        SettleMoves(s.db, s.db.logs[id].user, id, 0, seen, Failed, "");
      }
    case Reconcile(u) => ReconcileIdle(s, u);
    case _ =>
  }
}
