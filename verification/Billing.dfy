/**
 The hold / capture / release protocol at the granularity of its PostgreSQL transactions.

 A `Core` state is the database plus two facts about the past: which requests placed a
 hold (`requests`) and which have had a settlement commit (`settled`).  A step is one
 transaction attempt by one actor: the gateway, a worker attempt on an event, the sweeper,
 an operator, or reconciliation.  An attempt that its transaction refuses changes nothing.
 `Run` executes any sequence of attempts in any order, so a statement about `Run(steps)`
 for all `steps` covers every interleaving of deliveries, redeliveries, replays and sweeps.
 */
module Billing {
  import opened Base
  import opened Keys
  import opened Ledger

  /** What a request brings to ApplyHold.  clientKey is "" when no Idempotency-Key was sent. */
  datatype Request = Request(user: string, clientKey: string, hold: int)

  datatype Core = Core(db: Db, requests: map<string, Request>, settled: set<string>)

  datatype Step =
    | CreateUser(user: string)
    | DepositCredits(user: string, amount: int, key: string)
    | PlaceHold(id: string, req: Request)
    | WriteLog(id: string)
    | OpenSession(id: string, expires: int)
    | CloseSession(id: string)
    | SettleUsage(id: string, price: nat, status: Status)
    | SweepHold(id: string, seen: int)
    | Reconcile(user: string)

  /** CaptureRelease: the price clipped to the hold, and the rest of the hold. */
  function CaptureRelease(hold: int, price: int): (r: (int, int))
    ensures r.0 == Min(price, hold) && r.1 == Max(hold - price, 0)
    ensures r.0 + r.1 == hold
  {
    if hold - price < 0 then (hold, 0) else (price, hold - price)
  }

  /** The clipped price and its rest stay within the hold exactly when the price is not negative. */
  lemma WithinHold(hold: int, price: int)
    requires hold >= 0
    ensures var (capture, release) := CaptureRelease(hold, price);
            (0 <= capture <= hold && 0 <= release <= hold) <==> price >= 0
  {
  }

  ghost function Settle(s: Core, user: string, id: string, capture: int, release: int,
                        status: Status, clientKey: string): Core {
    if CanSettle(s.db, user, id, capture, release, clientKey)
    then s.(db := AfterSettle(s.db, user, id, capture, release, status, clientKey), settled := s.settled + {id})
    else s
  }

  ghost function Apply(s: Core, step: Step): Core {
    match step
    case CreateUser(u) =>
      if u in s.db.balances then s else s.(db := s.db.(balances := s.db.balances[u := 0]))
    case DepositCredits(u, amount, key) =>
      if CanDeposit(s.db, u, amount, Parse(key)) then s.(db := AfterDeposit(s.db, u, amount, Parse(key))) else s
    case PlaceHold(id, req) =>
      // request ids are fresh UUIDs and holds are positive
      if id in s.requests || req.hold <= 0 then s
      else
        var key := HoldKey(KeyRef(id, req.clientKey));
        if CanHold(s.db, req.user, req.hold, key)
        then s.(db := AfterHold(s.db, req.user, req.hold, id, key), requests := s.requests[id := req])
        else s
    case WriteLog(id) =>
      if id !in s.requests then s
      else s.(db := InsertLog(s.db, id, s.requests[id].user, s.requests[id].hold))
    case OpenSession(id, expires) =>
      // the gateway opens the session after it wrote the log
      if id !in s.requests || id !in s.db.logs then s
      else s.(db := InsertSession(s.db, id, s.requests[id].user, s.requests[id].hold, expires))
    case CloseSession(id) =>
      // worker and sweeper delete a session only after their own settlement committed
      if id !in s.settled then s else s.(db := DeleteSession(s.db, id))
    case SettleUsage(id, price, status) =>
      if id !in s.requests then s
      else
        var req := s.requests[id];
        var (capture, release) := CaptureRelease(req.hold, price);
        Settle(s, req.user, id, capture, release, status, req.clientKey)
    case SweepHold(id, seen) =>
      // `seen` is what GetMeteringSession returned earlier: the hold, or 0 when the row could not be read;
      // the settlement keys never use the client key here
      if id !in s.requests || id !in s.db.logs || !(seen == 0 || seen == s.requests[id].hold) then s
      else Settle(s, s.db.logs[id].user, id, 0, seen, Failed, "")
    case Reconcile(u) => s.(db := Reconciled(s.db, u))
  }

  const INIT := Core(Db(map[], [], map[], map[]), map[], {})

  ghost function RunFrom(s: Core, steps: seq<Step>): Core {
    if steps == [] then s else Apply(RunFrom(s, steps[..|steps| - 1]), steps[|steps| - 1])
  }

  ghost function Run(steps: seq<Step>): Core {
    RunFrom(INIT, steps)
  }

  lemma RunSnoc(s: Core, steps: seq<Step>, step: Step)
    ensures RunFrom(s, steps + [step]) == Apply(RunFrom(s, steps), step)
  {
    hide Apply;
    assert (steps + [step])[..|steps|] == steps;
  }

  // ----- the invariant -----

  /** What each row says about the request it references. */
  ghost predicate RowShape(requests: map<string, Request>, row: Row) {
    if row.kind == Deposit then row.ref == None
    else
      && row.ref.Some? && row.ref.value in requests
      && var id := row.ref.value;
         var req := requests[id];
         var ref := KeyRef(id, req.clientKey);
         && row.user == req.user
         && match row.kind {
              case Hold => row.key == HoldKey(ref) && row.amount == -req.hold
              case Capture => row.key == CaptureKey(ref) && -req.hold <= row.amount < 0
              case Release => 0 < row.amount <= req.hold &&
                              (row.key == ReleaseKey(ref) || (row.key == ReleaseKey(id) && row.amount == req.hold))
              case Deposit => false
            }
  }

  ghost predicate RowsShaped(requests: map<string, Request>, rows: seq<Row>) {
    forall i | 0 <= i < |rows| :: RowShape(requests, rows[i])
  }

  ghost predicate HasHoldRow(rows: seq<Row>, id: string) {
    exists i | 0 <= i < |rows| :: rows[i].kind == Hold && rows[i].ref == Some(id)
  }

  ghost predicate HoldsRecorded(requests: map<string, Request>, rows: seq<Row>) {
    forall id | id in requests :: HasHoldRow(rows, id)
  }

  ghost predicate RequestsKnown(s: Core) {
    forall id | id in s.requests :: s.requests[id].hold > 0 && s.requests[id].user in s.db.balances
  }

  ghost predicate LogsMatch(s: Core) {
    forall id | id in s.db.logs :: id in s.requests && s.db.logs[id].user == s.requests[id].user
  }

  ghost predicate SessionsMatch(s: Core) {
    forall id | id in s.db.sessions ::
      id in s.requests && id in s.db.logs && s.db.sessions[id].hold == s.requests[id].hold
  }

  ghost predicate SettledKnown(s: Core) {
    forall id | id in s.settled :: id in s.requests
  }

  ghost predicate Sound(s: Core) {
    && Agrees(s.db)
    && RowsShaped(s.requests, s.db.rows)
    && HoldsRecorded(s.requests, s.db.rows)
    && RequestsKnown(s) && LogsMatch(s) && SessionsMatch(s) && SettledKnown(s)
  }

  // ----- the invariant is kept by every step -----

  /** Rows about known requests: shaped, and every hold recorded. */
  ghost predicate Booked(requests: map<string, Request>, rows: seq<Row>) {
    RowsShaped(requests, rows) && HoldsRecorded(requests, rows)
  }

  lemma BookedGrows(requests: map<string, Request>, rows: seq<Row>, row: Row)
    requires Booked(requests, rows) && RowShape(requests, row)
    ensures Booked(requests, rows + [row])
  {
    hide RowShape;
    var next := rows + [row];
    forall id | id in requests ensures HasHoldRow(next, id) {
      var i :| 0 <= i < |rows| && rows[i].kind == Hold && rows[i].ref == Some(id);
      assert next[i] == rows[i];
    }
  }

  /** A new request's hold row books it. */
  lemma BookedHold(requests: map<string, Request>, rows: seq<Row>, id: string, req: Request, row: Row)
    requires Booked(requests, rows) && id !in requests
    requires row.kind == Hold && row.ref == Some(id) && row.user == req.user
    requires row.key == HoldKey(KeyRef(id, req.clientKey)) && row.amount == -req.hold
    ensures Booked(requests[id := req], rows + [row])
  {
    var more := requests[id := req];
    forall i | 0 <= i < |rows| ensures RowShape(more, rows[i]) {
      assert RowShape(requests, rows[i]);
    }
    forall x | x in requests ensures HasHoldRow(rows, x) {
    }
    var next := rows + [row];
    assert next[|rows|] == row;
    forall x | x in more ensures HasHoldRow(next, x) {
      if x != id {
        var i :| 0 <= i < |rows| && rows[i].kind == Hold && rows[i].ref == Some(x);
        assert next[i] == rows[i];
      }
    }
  }

  lemma BookedSettle(s: Core, user: string, id: string, capture: int, release: int, status: Status, clientKey: string)
    requires Booked(s.requests, s.db.rows) && id in s.requests && user == s.requests[id].user && user in s.db.balances
    requires SettlesOwnHold(s.requests[id], capture, release, clientKey)
    ensures Booked(s.requests, AfterSettle(s.db, user, id, capture, release, status, clientKey).rows)
  {
    hide Booked;
    var ref := KeyRef(id, clientKey);
    var mid := AfterCapture(s.db, user, id, capture, ref);
    if capture > 0 {
      BookedGrows(s.requests, s.db.rows, Row(user, Capture, -capture, s.db.balances[user] - capture, Some(id), CaptureKey(ref)));
    }
    if release > 0 {
      BookedGrows(s.requests, mid.rows, Row(user, Release, release, mid.balances[user] + release, Some(id), ReleaseKey(ref)));
    }
  }

  /** The two ways the program settles a request: a worker's capture and release of parts of the hold
      under the request's own keys, or a sweep's release of all or nothing under the id's key. */
  ghost predicate SettlesOwnHold(req: Request, capture: int, release: int, clientKey: string) {
    && 0 <= capture && 0 <= release
    && (|| (clientKey == req.clientKey && capture + release == req.hold)
        || (clientKey == "" && capture == 0 && (release == 0 || release == req.hold)))
  }

  lemma HoldKeeps(s: Core, id: string, req: Request)
    requires Sound(s)
    ensures Sound(Apply(s, PlaceHold(id, req)))
  {
    hide Agrees, RowsShaped, HoldsRecorded;
    var key := HoldKey(KeyRef(id, req.clientKey));
    if id !in s.requests && req.hold > 0 && CanHold(s.db, req.user, req.hold, key) {
      HoldAgrees(s.db, req.user, req.hold, id, key);
      BookedHold(s.requests, s.db.rows, id, req, Row(req.user, Hold, -req.hold, s.db.balances[req.user] - req.hold, Some(id), key));
    }
  }

  lemma SettleKeeps(s: Core, user: string, id: string, capture: int, release: int, status: Status, clientKey: string)
    requires Sound(s) && id in s.requests && user == s.requests[id].user
    requires SettlesOwnHold(s.requests[id], capture, release, clientKey)
    ensures Sound(Settle(s, user, id, capture, release, status, clientKey))
  {
    hide Agrees, RowsShaped, HoldsRecorded, SettlesOwnHold;
    if CanSettle(s.db, user, id, capture, release, clientKey) {
      BookedSettle(s, user, id, capture, release, status, clientKey);
      SettleAgrees(s.db, user, id, capture, release, status, clientKey);
    }
  }

  lemma CreateUserKeeps(s: Core, user: string)
    requires Sound(s)
    ensures Sound(Apply(s, CreateUser(user)))
  {
    hide Total, RunningBalances, RowsShaped, HoldsRecorded;
    if user !in s.db.balances {
      NoRowsNoSum(s.db.rows, user);
    }
  }

  lemma DepositKeeps(s: Core, user: string, amount: int, key: string)
    requires Sound(s)
    ensures Sound(Apply(s, DepositCredits(user, amount, key)))
  {
    hide Agrees, RowsShaped, HoldsRecorded;
    if CanDeposit(s.db, user, amount, Parse(key)) {
      DepositAgrees(s.db, user, amount, Parse(key));
      BookedGrows(s.requests, s.db.rows, Row(user, Deposit, amount, s.db.balances[user] + amount, None, Parse(key)));
    }
  }

  lemma ApplyKeeps(s: Core, step: Step)
    requires Sound(s)
    ensures Sound(Apply(s, step))
  {
    hide Agrees, RowsShaped, HoldsRecorded, Settle;
    match step
    case CreateUser(u) => CreateUserKeeps(s, u);
    case DepositCredits(u, amount, key) => DepositKeeps(s, u, amount, key);
    case PlaceHold(id, req) => HoldKeeps(s, id, req);
    case WriteLog(id) => SessionStepKeeps(s, step);
    case OpenSession(id, expires) => SessionStepKeeps(s, step);
    case CloseSession(id) => SessionStepKeeps(s, step);
    case SettleUsage(id, price, status) =>
      if id in s.requests {
        var (capture, release) := CaptureRelease(s.requests[id].hold, price);
        SettleKeeps(s, s.requests[id].user, id, capture, release, status, s.requests[id].clientKey);
      }
    case SweepHold(id, seen) =>
      if id in s.requests && id in s.db.logs && (seen == 0 || seen == s.requests[id].hold) {
        SettleKeeps(s, s.db.logs[id].user, id, 0, seen, Failed, "");
      }
    case Reconcile(u) =>
      ReconcileIdle(s, u);
  }

  /** In an agreeing state reconciliation has nothing to do. */
  lemma ReconcileIdle(s: Core, user: string)
    requires Agrees(s.db)
    ensures Apply(s, Reconcile(user)) == s
  {
    if user in s.db.balances {
      ReconcileRestores(s.db, user);
    }
  }

  lemma SessionStepKeeps(s: Core, step: Step)
    requires Sound(s) && (step.WriteLog? || step.OpenSession? || step.CloseSession?)
    ensures Sound(Apply(s, step))
  {
    hide UniqueKeys, RunningBalances, LedgerSum, RowsShaped, HoldsRecorded;
  }

  lemma NoRowsNoSum(rows: seq<Row>, user: string)
    requires forall i | 0 <= i < |rows| :: rows[i].user != user
    ensures LedgerSum(rows, user) == 0
  {
    TotalZero(rows, OfUser(user));
  }

  lemma {:induction false} RunFromKeeps(s: Core, steps: seq<Step>)
    requires Sound(s)
    ensures Sound(RunFrom(s, steps))
  {
    hide Sound, Apply;
    if steps != [] {
      RunFromKeeps(s, steps[..|steps| - 1]);
      ApplyKeeps(RunFrom(s, steps[..|steps| - 1]), steps[|steps| - 1]);
    }
  }

  /** Every reachable state: balances are never negative, equal their user's ledger sum, and each
      row's balance_after is the running sum up to it; every row belongs to a request that held. */
  lemma Reachable(steps: seq<Step>)
    ensures Sound(Run(steps))
    ensures forall u | u in Run(steps).db.balances ::
              Run(steps).db.balances[u] >= 0 && Run(steps).db.balances[u] == LedgerSum(Run(steps).db.rows, u)
  {
    RunFromKeeps(INIT, steps);
  }
}
