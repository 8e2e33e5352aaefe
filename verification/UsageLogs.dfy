/** The audit trail: what a usage log's ledger links say, after any run. */
module UsageLogs {
  import opened Base
  import opened Ledger
  import opened Billing
  import opened Outcomes
  import opened Settlement

  /** A link names a ledger row of the right kind, of this request, for the amount the log shows. */
  ghost predicate Linked(rows: seq<Row>, id: string, log: UsageLog) {
    && (log.captureTxn == None ==> log.captured == 0)
    && (log.captureTxn.Some? ==>
          && log.captureTxn.value < |rows|
          && var row := rows[log.captureTxn.value];
             row.kind == Capture && row.ref == Some(id) && row.amount == -log.captured)
    && (log.releaseTxn.Some? ==>
          && log.releaseTxn.value < |rows|
          && var row := rows[log.releaseTxn.value];
             row.kind == Release && row.ref == Some(id))
  }

  ghost predicate AllLinked(s: Core) {
    forall id | id in s.db.logs :: Linked(s.db.rows, id, s.db.logs[id])
  }

  lemma LinkStays(rows: seq<Row>, more: seq<Row>, id: string, log: UsageLog)
    requires Linked(rows, id, log) && rows <= more
    ensures Linked(more, id, log)
  {
  }

  /** A settlement links the log to exactly the rows it just inserted. */
  lemma SettleLinks(db: Db, user: string, id: string, capture: int, release: int, status: Status, clientKey: string)
    requires user in db.balances && 0 <= capture && 0 <= release && id in db.logs
    ensures var t := AfterSettle(db, user, id, capture, release, status, clientKey);
            && id in t.logs && Linked(t.rows, id, t.logs[id])
            && t.logs[id].status == status && t.logs[id].captured == capture
            && (t.logs[id].captureTxn.Some? <==> capture > 0) && (t.logs[id].releaseTxn.Some? <==> release > 0)
  {
  }

  lemma SettleKeepsLinks(s: Core, user: string, id: string, capture: int, release: int, status: Status, clientKey: string)
    requires AllLinked(s) && 0 <= capture && 0 <= release
    ensures AllLinked(Settle(s, user, id, capture, release, status, clientKey))
  {
    hide Linked, CanSettle, AfterSettle;
    if CanSettle(s.db, user, id, capture, release, clientKey) {
      CanSettleUser(s.db, user, id, capture, release, clientKey);
      SettleFrame(s.db, user, id, capture, release, status, clientKey);
      var t := AfterSettle(s.db, user, id, capture, release, status, clientKey);
      forall x | x in t.logs ensures Linked(t.rows, x, t.logs[x]) {
        if x == id {
          SettleLinks(s.db, user, id, capture, release, status, clientKey);
        } else {
          LinkStays(s.db.rows, t.rows, x, s.db.logs[x]);
        }
      }
    }
  }

  lemma LinksStay(s: Core, t: Core)
    requires AllLinked(s) && s.db.rows <= t.db.rows
    requires forall x | x in t.db.logs ::
               (x in s.db.logs && t.db.logs[x] == s.db.logs[x]) || Linked(t.db.rows, x, t.db.logs[x])
    ensures AllLinked(t)
  {
    hide Linked;
    forall x | x in t.db.logs ensures Linked(t.db.rows, x, t.db.logs[x]) {
      if x in s.db.logs && t.db.logs[x] == s.db.logs[x] {
        LinkStays(s.db.rows, t.db.rows, x, s.db.logs[x]);
      }
    }
  }

  lemma ApplyKeepsLinks(s: Core, step: Step)
    requires Sound(s) && AllLinked(s)
    ensures AllLinked(Apply(s, step))
  {
    hide AllLinked, Settle, CanHold, CanDeposit, KeyRef, Agrees, RowsShaped, HoldsRecorded;
    match step
    case SettleUsage(id, price, status) =>
      if id in s.requests {
        var req := s.requests[id];
        var (capture, release) := CaptureRelease(req.hold, price);
        SettleKeepsLinks(s, req.user, id, capture, release, status, req.clientKey);
      }
    case SweepHold(id, seen) =>
      if id in s.requests && id in s.db.logs && (seen == 0 || seen == s.requests[id].hold) {
        SettleKeepsLinks(s, s.db.logs[id].user, id, 0, seen, Failed, "");
      }
    case _ => LinksStay(s, Apply(s, step));
  }

  /** After any run every link of every usage log is right. */
  lemma {:induction false} RunLinked(steps: seq<Step>)
    ensures AllLinked(Run(steps))
  {
    hide Apply, Sound;
    if steps != [] {
      var front := steps[..|steps| - 1];
      RunLinked(front);
      Reachable(front);
      ApplyKeepsLinks(Run(front), steps[|steps| - 1]);
    }
  }

  /** A sweep that commits writes captured = 0 and drops the capture link, so the log agrees with the ledger
      afterwards exactly when the request had captured nothing before. */
  lemma SweepForgetsCapture(steps: seq<Step>, id: string, seen: int)
    requires var s := Run(steps);
             && id in s.requests && id in s.db.logs && (seen == 0 || seen == s.requests[id].hold)
             && CanSettle(s.db, s.db.logs[id].user, id, 0, seen, "")
    ensures var s := Run(steps);
            var t := Apply(s, SweepHold(id, seen));
            && id in t.db.logs && t.db.logs[id].status == Failed && t.db.logs[id].captureTxn == None
            && (t.db.logs[id].captured == Captured(t.db.rows, id) <==> Captured(s.db.rows, id) == 0)
  {
    hide Captured, Released, Agrees, RowsShaped, HoldsRecorded, Linked, CanSettle, AfterSettle;
    var s := Run(steps);
    Reachable(steps);
    var user := s.db.logs[id].user;
    CanSettleUser(s.db, user, id, 0, seen, "");
    KindSettle(s.db, user, id, 0, seen, Failed, "");
    SettleLinks(s.db, user, id, 0, seen, Failed, "");
  }
}
