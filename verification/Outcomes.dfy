/**
 What the ledger says about one request, after any run.

 Amounts are summed over the rows that reference the request.  The database never sees
 them together: that they stay within the hold follows from the unique keys alone.
 */
module Outcomes {
  import opened Base
  import opened Keys
  import opened Ledger
  import opened Billing

  function OfKind(id: string, kind: Kind): Row -> int {
    (r: Row) => if r.ref == Some(id) && r.kind == kind then r.amount else 0
  }

  function AtKey(id: string, key: Key): Row -> int {
    (r: Row) => if r.ref == Some(id) && r.key == key then r.amount else 0
  }

  ghost function Held(rows: seq<Row>, id: string): int { -Total(rows, OfKind(id, Hold)) }

  ghost function Captured(rows: seq<Row>, id: string): int { -Total(rows, OfKind(id, Capture)) }

  ghost function Released(rows: seq<Row>, id: string): int { Total(rows, OfKind(id, Release)) }

  /** Net amount a request has at one key. */
  ghost function Net(rows: seq<Row>, id: string, key: Key): int { Total(rows, AtKey(id, key)) }

  /** Untouched; or captured and the rest released; or captured in full and released in full. */
  ghost predicate Outcome(hold: int, captured: int, released: int) {
    || (captured == 0 && released == 0)
    || (0 <= captured <= hold && released == hold - captured)
    || (captured == hold && released == hold)
  }

  ghost predicate Fair(rows: seq<Row>, id: string, req: Request) {
    var ref := KeyRef(id, req.clientKey);
    && Outcome(req.hold, -Net(rows, id, CaptureKey(ref)), Net(rows, id, ReleaseKey(ref)))
    && (ref != id ==> Net(rows, id, ReleaseKey(id)) == 0 || Net(rows, id, ReleaseKey(id)) == req.hold)
  }

  ghost predicate AllFair(s: Core) {
    forall id | id in s.requests :: Fair(s.db.rows, id, s.requests[id])
  }

  // ----- how one posting moves the nets -----

  lemma NetPost(rows: seq<Row>, row: Row, id: string, key: Key)
    ensures Net(rows + [row], id, key)
         == Net(rows, id, key) + (if row.ref == Some(id) && row.key == key then row.amount else 0)
  {
    TotalSnoc(rows, row, AtKey(id, key));
  }

  lemma NetFresh(rows: seq<Row>, id: string, key: Key)
    requires KeyFree(rows, key)
    ensures Net(rows, id, key) == 0
  {
    TotalZero(rows, AtKey(id, key));
  }

  lemma NetStranger(rows: seq<Row>, requests: map<string, Request>, id: string, key: Key)
    requires RowsShaped(requests, rows) && id !in requests
    ensures Net(rows, id, key) == 0
  {
    forall i | 0 <= i < |rows| ensures AtKey(id, key)(rows[i]) == 0 {
      assert RowShape(requests, rows[i]);
    }
    TotalZero(rows, AtKey(id, key));
  }

  /** A settlement moves two nets of its own request and no other. */
  lemma NetSettle(db: Db, user: string, id: string, capture: int, release: int, status: Status, clientKey: string,
                  x: string, key: Key)
    requires user in db.balances && 0 <= capture && 0 <= release
    ensures var ref := KeyRef(id, clientKey);
            (Net(AfterSettle(db, user, id, capture, release, status, clientKey).rows, x, key)
             == Net(db.rows, x, key)
                - (if x == id && key == CaptureKey(ref) then capture else 0)
                + (if x == id && key == ReleaseKey(ref) then release else 0))
  {
    hide Net;
    var ref := KeyRef(id, clientKey);
    var mid := AfterCapture(db, user, id, capture, ref);
    if capture > 0 {
      NetPost(db.rows, Row(user, Capture, -capture, db.balances[user] - capture, Some(id), CaptureKey(ref)), x, key);
    }
    if release > 0 {
      NetPost(mid.rows, Row(user, Release, release, mid.balances[user] + release, Some(id), ReleaseKey(ref)), x, key);
    }
  }

  // ----- fairness is kept by every step -----

  /** A committed settlement wrote under fresh keys, so it found those nets at zero. */
  lemma SettleFair(s: Core, user: string, id: string, capture: int, release: int, status: Status, clientKey: string)
    requires AllFair(s) && id in s.requests && s.requests[id].hold > 0
    requires SettlesOwnHold(s.requests[id], capture, release, clientKey)
    ensures AllFair(Settle(s, user, id, capture, release, status, clientKey))
  {
    hide Net;
    if CanSettle(s.db, user, id, capture, release, clientKey) {
      var after := AfterSettle(s.db, user, id, capture, release, status, clientKey).rows;
      var ref := KeyRef(id, clientKey);
      if capture > 0 {
        NetFresh(s.db.rows, id, CaptureKey(ref));
      }
      if release > 0 {
        NetFresh(s.db.rows, id, ReleaseKey(ref));
      }
      forall x | x in s.requests ensures Fair(after, x, s.requests[x]) {
        var own := KeyRef(x, s.requests[x].clientKey);
        NetSettle(s.db, user, id, capture, release, status, clientKey, x, CaptureKey(own));
        NetSettle(s.db, user, id, capture, release, status, clientKey, x, ReleaseKey(own));
        NetSettle(s.db, user, id, capture, release, status, clientKey, x, ReleaseKey(x));
        assert Fair(s.db.rows, x, s.requests[x]);
      }
    }
  }

  /** A row that settles nobody leaves every request as it was. */
  lemma OtherPostFair(s: Core, row: Row, t: Core)
    requires AllFair(s) && RowsShaped(s.requests, s.db.rows)
    requires row.ref == None || row.key.HoldKey?
    requires t.db.rows == s.db.rows + [row]
    requires forall x | x in t.requests :: (x in s.requests && t.requests[x] == s.requests[x]) || x !in s.requests
    ensures AllFair(t)
  {
    hide Net, RowsShaped;
    forall x | x in t.requests ensures Fair(t.db.rows, x, t.requests[x]) {
      var own := KeyRef(x, t.requests[x].clientKey);
      NetPost(s.db.rows, row, x, CaptureKey(own));
      NetPost(s.db.rows, row, x, ReleaseKey(own));
      NetPost(s.db.rows, row, x, ReleaseKey(x));
      if x in s.requests {
        assert Fair(s.db.rows, x, s.requests[x]);
      } else {
        NetStranger(s.db.rows, s.requests, x, CaptureKey(own));
        NetStranger(s.db.rows, s.requests, x, ReleaseKey(own));
        NetStranger(s.db.rows, s.requests, x, ReleaseKey(x));
      }
    }
  }

  lemma ApplyFair(s: Core, step: Step)
    requires Sound(s) && AllFair(s)
    ensures AllFair(Apply(s, step))
  {
    hide Fair, Agrees, RowsShaped, HoldsRecorded, Settle;
    var t := Apply(s, step);
    match step
    case DepositCredits(u, amount, key) =>
      if CanDeposit(s.db, u, amount, Parse(key)) {
        OtherPostFair(s, Row(u, Deposit, amount, s.db.balances[u] + amount, None, Parse(key)), t);
      }
    case PlaceHold(id, req) =>
      var key := HoldKey(KeyRef(id, req.clientKey));
      if id !in s.requests && req.hold > 0 && CanHold(s.db, req.user, req.hold, key) {
        OtherPostFair(s, Row(req.user, Hold, -req.hold, s.db.balances[req.user] - req.hold, Some(id), key), t);
      }
    case SettleUsage(id, price, status) =>
      if id in s.requests {
        var (capture, release) := CaptureRelease(s.requests[id].hold, price);
        SettleFair(s, s.requests[id].user, id, capture, release, status, s.requests[id].clientKey);
      }
    case SweepHold(id, seen) =>
      if id in s.requests && id in s.db.logs && (seen == 0 || seen == s.requests[id].hold) {
        SettleFair(s, s.db.logs[id].user, id, 0, seen, Failed, "");
      }
    case _ =>
  }

  lemma {:induction false} RunFair(steps: seq<Step>)
    ensures AllFair(Run(steps))
  {
    hide AllFair, Sound, Apply;
    if steps == [] {
      InitFair();
    } else {
      var before := steps[..|steps| - 1];
      RunFair(before);
      Reachable(before);
      ApplyFair(Run(before), steps[|steps| - 1]);
    }
  }

  lemma InitFair()
    ensures AllFair(INIT)
  {
  }

  // ----- nets are the sums by kind -----

  lemma {:induction false} TotalSame(rows: seq<Row>, a: Row -> int, b: Row -> int)
    requires forall i | 0 <= i < |rows| :: a(rows[i]) == b(rows[i])
    ensures Total(rows, a) == Total(rows, b)
  {
    if rows != [] {
      TotalSame(rows[..|rows| - 1], a, b);
    }
  }

  /** With unique keys, a net is the amount of the one row that has the key. */
  lemma {:induction false} NetOfRow(rows: seq<Row>, i: nat)
    requires UniqueKeys(rows) && i < |rows| && rows[i].ref.Some?
    ensures Net(rows, rows[i].ref.value, rows[i].key) == rows[i].amount
  {
    var id, key := rows[i].ref.value, rows[i].key;
    var last := |rows| - 1;
    var front := rows[..last];
    if i == last {
      assert KeyFree(front, key);
      NetFresh(front, id, key);
    } else {
      assert front[i] == rows[i];
      NetOfRow(front, i);
    }
  }

  lemma KindsByKey(requests: map<string, Request>, rows: seq<Row>, id: string)
    requires RowsShaped(requests, rows) && id in requests
    ensures var ref := KeyRef(id, requests[id].clientKey);
            && Held(rows, id) == -Net(rows, id, HoldKey(ref))
            && Captured(rows, id) == -Net(rows, id, CaptureKey(ref))
            && Released(rows, id) == Net(rows, id, ReleaseKey(ref)) + (if ref == id then 0 else Net(rows, id, ReleaseKey(id)))
  {
    var ref := KeyRef(id, requests[id].clientKey);
    forall i | 0 <= i < |rows|
      ensures OfKind(id, Hold)(rows[i]) == AtKey(id, HoldKey(ref))(rows[i])
      ensures OfKind(id, Capture)(rows[i]) == AtKey(id, CaptureKey(ref))(rows[i])
      ensures OfKind(id, Release)(rows[i])
           == AtKey(id, ReleaseKey(ref))(rows[i]) + (if ref == id then 0 else AtKey(id, ReleaseKey(id))(rows[i]))
    {
      assert RowShape(requests, rows[i]);
    }
    TotalSame(rows, OfKind(id, Hold), AtKey(id, HoldKey(ref)));
    TotalSame(rows, OfKind(id, Capture), AtKey(id, CaptureKey(ref)));
    if ref == id {
      TotalSame(rows, OfKind(id, Release), AtKey(id, ReleaseKey(ref)));
    } else {
      TotalSplit(rows, OfKind(id, Release), AtKey(id, ReleaseKey(ref)), AtKey(id, ReleaseKey(id)));
    }
  }

  /** A request's hold is on the ledger exactly once. */
  lemma HeldOnce(s: Core, id: string)
    requires Sound(s) && id in s.requests
    ensures Held(s.db.rows, id) == s.requests[id].hold
  {
    hide RunningBalances, LedgerSum, Net, Held;
    var rows := s.db.rows;
    assert HasHoldRow(rows, id);
    var i :| 0 <= i < |rows| && rows[i].kind == Hold && rows[i].ref == Some(id);
    assert RowShape(s.requests, rows[i]);
    NetOfRow(rows, i);
    KindsByKey(s.requests, rows, id);
  }

  // ----- the theorems -----

  /** Per-request outcome, over every run.  A request whose keys come from its own id is never released
      more than it held.  A request with a client key can be settled by a worker and swept as well, in either
      order, because the sweeper's key is another one; then the sweep adds exactly one more full release.
      Released exceeds held exactly when both of them released something. */
  lemma RequestOutcome(steps: seq<Step>, id: string)
    requires id in Run(steps).requests
    ensures var s := Run(steps);
            var h := s.requests[id].hold;
            var c := Captured(s.db.rows, id);
            var r := Released(s.db.rows, id);
            && Held(s.db.rows, id) == h > 0
            && 0 <= c <= h && 0 <= r <= 2 * h
            && (Outcome(h, c, r) || Outcome(h, c, r - h))
            && (KeyRef(id, s.requests[id].clientKey) == id ==> Outcome(h, c, r) && r <= h)
            && (r > h <==> Twice(s.db.rows, id, s.requests[id].clientKey))
  {
    ReleasedWithinHold(steps, id);
    hide Sound, Net, Held, Captured, Released;
    var s := Run(steps);
    Reachable(steps);
    RunFair(steps);
    HeldOnce(s, id);
    KindsByKey(s.requests, s.db.rows, id);
    HoldPositive(s, id);
    assert Fair(s.db.rows, id, s.requests[id]);
  }

  /** The request has a release row under the key. */
  ghost predicate ReleasedUnder(rows: seq<Row>, id: string, key: Key) {
    exists i | 0 <= i < |rows| :: rows[i].kind == Release && rows[i].ref == Some(id) && rows[i].key == key
  }

  /** Released by the worker under the client's key and by the sweeper under the request's own id. */
  ghost predicate Twice(rows: seq<Row>, id: string, clientKey: string) {
    var ref := KeyRef(id, clientKey);
    ref != id && ReleasedUnder(rows, id, ReleaseKey(ref)) && ReleasedUnder(rows, id, ReleaseKey(id))
  }

  lemma NetIffReleased(requests: map<string, Request>, rows: seq<Row>, id: string, ref: string)
    requires UniqueKeys(rows) && RowsShaped(requests, rows)
    ensures Net(rows, id, ReleaseKey(ref)) >= 0
    ensures Net(rows, id, ReleaseKey(ref)) > 0 <==> ReleasedUnder(rows, id, ReleaseKey(ref))
  {
    if i :| 0 <= i < |rows| && rows[i].ref == Some(id) && rows[i].key == ReleaseKey(ref) {
      assert RowShape(requests, rows[i]);
      NetOfRow(rows, i);
    } else {
      TotalZero(rows, AtKey(id, ReleaseKey(ref)));
    }
  }

  /** Over every run: a request has been released more than it held exactly when it has release rows under two
      keys, its client's and its own id's, in whichever order the worker and the sweeper wrote them. */
  lemma ReleasedWithinHold(steps: seq<Step>, id: string)
    requires id in Run(steps).requests
    ensures var s := Run(steps);
            Released(s.db.rows, id) > s.requests[id].hold <==> Twice(s.db.rows, id, s.requests[id].clientKey)
  {
    hide Run, Net, Released, Captured, Held, ReleasedUnder, RowsShaped;
    var s := Run(steps);
    var ref := KeyRef(id, s.requests[id].clientKey);
    RunFair(steps);
    Reachable(steps);
    HoldPositive(s, id);
    assert Fair(s.db.rows, id, s.requests[id]);
    KindsByKey(s.requests, s.db.rows, id);
    NetIffReleased(s.requests, s.db.rows, id, ref);
    NetIffReleased(s.requests, s.db.rows, id, id);
  }

  lemma HoldPositive(s: Core, id: string)
    requires Sound(s) && id in s.requests
    ensures s.requests[id].hold > 0 && s.requests[id].user in s.db.balances
    ensures RowsShaped(s.requests, s.db.rows)
  {
  }

  /** At most one capture row per request, and at most one release row unless a client key splits
      worker and sweeper. */
  lemma RowsPerRequest(steps: seq<Step>, id: string, i: nat, j: nat)
    requires i < j < |Run(steps).db.rows|
    requires Run(steps).db.rows[i].ref == Run(steps).db.rows[j].ref == Some(id)
    requires Run(steps).db.rows[i].kind == Run(steps).db.rows[j].kind
    ensures Run(steps).db.rows[i].kind == Release
    ensures id in Run(steps).requests && KeyRef(id, Run(steps).requests[id].clientKey) != id
  {
    hide RunningBalances, LedgerSum;
    var s := Run(steps);
    Reachable(steps);
    assert RowShape(s.requests, s.db.rows[i]) && RowShape(s.requests, s.db.rows[j]);
  }

  /** A client key lets at most one request past ApplyHold, whatever users and ids send it. */
  lemma OneHoldPerKey(steps: seq<Step>, a: string, b: string)
    requires a in Run(steps).requests && b in Run(steps).requests
    requires KeyRef(a, Run(steps).requests[a].clientKey) == KeyRef(b, Run(steps).requests[b].clientKey)
    ensures a == b
  {
    Reachable(steps);
    RefIdentifies(Run(steps), a, b);
  }

  lemma RefIdentifies(s: Core, a: string, b: string)
    requires Sound(s) && a in s.requests && b in s.requests
    requires KeyRef(a, s.requests[a].clientKey) == KeyRef(b, s.requests[b].clientKey)
    ensures a == b
  {
    hide RunningBalances, LedgerSum;
    var rows := s.db.rows;
    assert HasHoldRow(rows, a) && HasHoldRow(rows, b);
    var i :| 0 <= i < |rows| && rows[i].kind == Hold && rows[i].ref == Some(a);
    var j :| 0 <= j < |rows| && rows[j].kind == Hold && rows[j].ref == Some(b);
    assert RowShape(s.requests, rows[i]) && RowShape(s.requests, rows[j]);
    assert rows[i].key == rows[j].key;
    assert i == j;
  }
}
