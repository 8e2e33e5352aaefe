/**
 The PostgreSQL store: users.credit_balance_micro, the append-only ledger, usage logs
 and metering sessions.  `Db` is the committed state.  Each transaction has a guard
 (`Can...`) and an effect (`After...`); class `Store` runs the transactions
 statement by statement and is proved to commit exactly when the guard holds and to leave
 the state untouched otherwise.
 */
module Ledger {
  import opened Base
  import opened Keys

  datatype Kind = Deposit | Hold | Capture | Release

  datatype Row = Row(user: string, kind: Kind, amount: int, after: int, ref: Option<string>, key: Key)

  datatype Status = Pending | Completed | Failed | Partial

  datatype UsageLog = UsageLog(user: string, status: Status, reserved: int, captured: int,
                               captureTxn: Option<nat>, releaseTxn: Option<nat>)

  datatype Session = Session(user: string, hold: int, expires: int)

  datatype Db = Db(balances: map<string, int>, rows: seq<Row>,
                   logs: map<string, UsageLog>, sessions: map<string, Session>)

  datatype StoreError = NoSuchUser | InsufficientCredits | DuplicateKey | CheckViolation

  /** No committed row uses `key`: the UNIQUE constraint lets it in. */
  predicate KeyFree(rows: seq<Row>, key: Key) {
    forall i | 0 <= i < |rows| :: rows[i].key != key
  }

  /** The reference a request's ledger keys are built from. */
  function KeyRef(id: string, clientKey: string): string {
    if clientKey != "" then clientKey else id
  }

  lemma KeyRefCases(id: string, clientKey: string)
    ensures clientKey != "" ==> KeyRef(id, clientKey) == clientKey
    ensures clientKey == "" ==> KeyRef(id, clientKey) == id
  {
  }

  // ----- weighted sums over the ledger -----

  function Total(rows: seq<Row>, weight: Row -> int): int {
    if rows == [] then 0
    else Total(rows[..|rows| - 1], weight) + weight(rows[|rows| - 1])
  }

  function OfUser(user: string): Row -> int {
    (r: Row) => if r.user == user then r.amount else 0
  }

  /** SELECT COALESCE(SUM(amount_micro), 0) ... WHERE user_id = user */
  function LedgerSum(rows: seq<Row>, user: string): int {
    Total(rows, OfUser(user))
  }

  lemma TotalSnoc(rows: seq<Row>, row: Row, weight: Row -> int)
    ensures Total(rows + [row], weight) == Total(rows, weight) + weight(row)
  {
    assert (rows + [row])[..|rows|] == rows;
  }

  lemma {:induction false} TotalConcat(a: seq<Row>, b: seq<Row>, weight: Row -> int)
    ensures Total(a + b, weight) == Total(a, weight) + Total(b, weight)
  {
    if b == [] {
      assert a + b == a;
    } else {
      var n := |b| - 1;
      TotalConcat(a, b[..n], weight);
      TotalSnoc(a + b[..n], b[n], weight);
      TotalSnoc(b[..n], b[n], weight);
      assert a + b == a + b[..n] + [b[n]] && b == b[..n] + [b[n]];
    }
  }

  lemma {:induction false} TotalZero(rows: seq<Row>, weight: Row -> int)
    requires forall i | 0 <= i < |rows| :: weight(rows[i]) == 0
    ensures Total(rows, weight) == 0
  {
    if rows != [] {
      TotalZero(rows[..|rows| - 1], weight);
    }
  }

  lemma {:induction false} TotalSplit(rows: seq<Row>, whole: Row -> int, a: Row -> int, b: Row -> int)
    requires forall i | 0 <= i < |rows| :: whole(rows[i]) == a(rows[i]) + b(rows[i])
    ensures Total(rows, whole) == Total(rows, a) + Total(rows, b)
  {
    if rows != [] {
      TotalSplit(rows[..|rows| - 1], whole, a, b);
    }
  }

  // ----- the transactions -----

  /** One ledger row, booked together with its user's balance. */
  function Post(db: Db, row: Row): Db {
    db.(balances := db.balances[row.user := row.after], rows := db.rows + [row])
  }

  ghost predicate CanDeposit(db: Db, user: string, amount: int, key: Key) {
    user in db.balances && db.balances[user] + amount >= 0 && KeyFree(db.rows, key)
  }

  ghost function AfterDeposit(db: Db, user: string, amount: int, key: Key): Db
    requires user in db.balances
  {
    Post(db, Row(user, Deposit, amount, db.balances[user] + amount, None, key))
  }

  ghost predicate CanHold(db: Db, user: string, hold: int, key: Key) {
    user in db.balances && hold <= db.balances[user] && KeyFree(db.rows, key)
  }

  ghost function AfterHold(db: Db, user: string, hold: int, id: string, key: Key): Db
    requires user in db.balances
  {
    Post(db, Row(user, Hold, -hold, db.balances[user] - hold, Some(id), key))
  }

  /** Both inserts see fresh keys and the final UPDATE passes CHECK (credit_balance_micro >= 0). */
  ghost predicate CanSettle(db: Db, user: string, id: string, capture: int, release: int, clientKey: string) {
    && user in db.balances
    && (capture > 0 ==> KeyFree(db.rows, CaptureKey(KeyRef(id, clientKey))))
    && (release > 0 ==> KeyFree(db.rows, ReleaseKey(KeyRef(id, clientKey))))
    && db.balances[user] - Max(capture, 0) + Max(release, 0) >= 0
  }

  ghost function AfterCapture(db: Db, user: string, id: string, capture: int, ref: string): (next: Db)
    requires user in db.balances
    ensures user in next.balances
  {
    if capture <= 0 then db
    else Post(db, Row(user, Capture, -capture, db.balances[user] - capture, Some(id), CaptureKey(ref)))
  }

  ghost function AfterRelease(db: Db, user: string, id: string, release: int, ref: string): Db
    requires user in db.balances
  {
    if release <= 0 then db
    else Post(db, Row(user, Release, release, db.balances[user] + release, Some(id), ReleaseKey(ref)))
  }

  /** UPDATE usage_logs ... WHERE request_id = id, with the numbers of the rows just inserted. */
  ghost function CompleteLog(db: Db, id: string, first: nat, capture: int, release: int, status: Status): Db {
    if id !in db.logs then db
    else
      var second := if capture > 0 then first + 1 else first;
      db.(logs := db.logs[id := db.logs[id].(status := status, captured := capture,
                          captureTxn := if capture > 0 then Some(first) else None,
                          releaseTxn := if release > 0 then Some(second) else None)])
  }

  ghost function AfterSettle(db: Db, user: string, id: string, capture: int, release: int,
                             status: Status, clientKey: string): Db
    requires user in db.balances
  {
    var ref := KeyRef(id, clientKey);
    var booked := AfterRelease(AfterCapture(db, user, id, capture, ref), user, id, release, ref);
    CompleteLog(booked, id, |db.rows|, capture, release, status)
  }

  /** A settlement of a whole hold commits exactly when its keys are fresh and balance >= 2*capture - hold. */
  lemma SettleGuard(db: Db, user: string, id: string, hold: int, capture: int, clientKey: string)
    requires 0 <= capture <= hold && user in db.balances
    ensures CanSettle(db, user, id, capture, hold - capture, clientKey) <==>
            && (capture > 0 ==> KeyFree(db.rows, CaptureKey(KeyRef(id, clientKey))))
            && (capture < hold ==> KeyFree(db.rows, ReleaseKey(KeyRef(id, clientKey))))
            && db.balances[user] >= 2 * capture - hold
  {
  }

  function InsertLog(db: Db, id: string, user: string, hold: int): Db {
    if id in db.logs then db
    else db.(logs := db.logs[id := UsageLog(user, Pending, hold, 0, None, None)])
  }

  function InsertSession(db: Db, id: string, user: string, hold: int, expires: int): Db {
    if id in db.sessions || user !in db.balances then db
    else db.(sessions := db.sessions[id := Session(user, hold, expires)])
  }

  function DeleteSession(db: Db, id: string): Db {
    db.(sessions := db.sessions - {id})
  }

  /** SetUserBalanceFromLedger: an UPDATE under the CHECK constraint. */
  function SetBalance(db: Db, user: string, amount: int): Db {
    if user in db.balances && amount >= 0 then db.(balances := db.balances[user := amount]) else db
  }

  // ----- what each transaction writes -----

  /** A deposit commits iff the user exists, the balance stays non-negative and no row has its key; it adds the
      amount to that balance and one deposit row, and touches nothing else. */
  lemma DepositLaw(db: Db, user: string, amount: int, key: Key)
    ensures CanDeposit(db, user, amount, key) <==>
            user in db.balances && db.balances[user] >= -amount && forall r | r in db.rows :: r.key != key
    ensures user in db.balances ==>
              var t := AfterDeposit(db, user, amount, key);
              && t.balances == db.balances[user := db.balances[user] + amount]
              && t.rows == db.rows + [Row(user, Deposit, amount, db.balances[user] + amount, None, key)]
              && t.logs == db.logs && t.sessions == db.sessions
  {
  }

  /** A hold commits iff the user exists, the balance covers it and no row has its key; it takes the hold from that
      balance and adds one hold row of the request, and touches nothing else. */
  lemma HoldLaw(db: Db, user: string, hold: int, id: string, key: Key)
    ensures CanHold(db, user, hold, key) <==>
            user in db.balances && db.balances[user] - hold >= 0 && forall r | r in db.rows :: r.key != key
    ensures user in db.balances ==>
              var t := AfterHold(db, user, hold, id, key);
              && t.balances == db.balances[user := db.balances[user] - hold]
              && t.rows == db.rows + [Row(user, Hold, -hold, db.balances[user] - hold, Some(id), key)]
              && t.logs == db.logs && t.sessions == db.sessions
  {
  }

  /** The rows a settlement writes: a capture row and a release row of the request, each only for a positive amount,
      under the client's key if there is one and the request's id otherwise, with the running balance. */
  lemma SettlementRows(db: Db, user: string, id: string, capture: int, release: int, status: Status, clientKey: string)
    requires user in db.balances
    ensures var ref := if clientKey == "" then id else clientKey;
            var left := db.balances[user] - Max(capture, 0);
            AfterSettle(db, user, id, capture, release, status, clientKey).rows
            == db.rows
               + (if capture > 0 then [Row(user, Capture, -capture, left, Some(id), CaptureKey(ref))] else [])
               + (if release > 0 then [Row(user, Release, release, left + release, Some(id), ReleaseKey(ref))] else [])
  {
  }

  /** A new usage log is pending with the hold reserved and nothing captured; a new session carries user, hold and
      expiry; neither replaces an old one or touches anything else. */
  lemma InsertLaw(db: Db, id: string, user: string, hold: int, expires: int)
    ensures var t := InsertLog(db, id, user, hold);
            && t == db.(logs := t.logs) && id in t.logs
            && (id in db.logs ==> t == db)
            && (id !in db.logs ==> t.logs == db.logs[id := UsageLog(user, Pending, hold, 0, None, None)])
    ensures var t := InsertSession(db, id, user, hold, expires);
            && t == db.(sessions := t.sessions)
            && (id in db.sessions || user !in db.balances ==> t == db)
            && (id !in db.sessions && user in db.balances ==> t.sessions == db.sessions[id := Session(user, hold, expires)])
  {
  }

  // ----- ledger agreement -----

  ghost predicate UniqueKeys(rows: seq<Row>) {
    forall i, j | 0 <= i < j < |rows| :: rows[i].key != rows[j].key
  }

  /** Every row's balance_after is the user's running sum up to and including it. */
  ghost predicate RunningBalances(rows: seq<Row>) {
    forall i | 0 <= i < |rows| :: rows[i].after == LedgerSum(rows[..i + 1], rows[i].user)
  }

  /** Books that tie out, whatever the sign of a balance: a transaction passes through such states. */
  ghost predicate TiedOut(db: Db) {
    && UniqueKeys(db.rows)
    && RunningBalances(db.rows)
    && (forall u | u in db.balances :: db.balances[u] == LedgerSum(db.rows, u))
    && (forall i | 0 <= i < |db.rows| :: db.rows[i].user in db.balances)
  }

  ghost predicate NonNegative(db: Db) {
    forall u | u in db.balances :: db.balances[u] >= 0
  }

  ghost predicate Agrees(db: Db) {
    TiedOut(db) && NonNegative(db)
  }

  /** Appending one row under a fresh key, with its running balance, keeps the row-level invariants. */
  lemma AppendRow(rows: seq<Row>, row: Row)
    requires UniqueKeys(rows) && RunningBalances(rows)
    requires KeyFree(rows, row.key) && row.after == LedgerSum(rows, row.user) + row.amount
    ensures UniqueKeys(rows + [row]) && RunningBalances(rows + [row])
  {
    var next := rows + [row];
    TotalSnoc(rows, row, OfUser(row.user));
    forall i | 0 <= i < |next| ensures next[i].after == LedgerSum(next[..i + 1], next[i].user) {
      if i < |rows| {
        assert next[..i + 1] == rows[..i + 1];
      } else {
        assert next[..i + 1] == next;
      }
    }
  }

  lemma PostTies(db: Db, row: Row)
    requires TiedOut(db) && KeyFree(db.rows, row.key)
    requires row.user in db.balances && row.after == db.balances[row.user] + row.amount
    ensures TiedOut(Post(db, row))
  {
    AppendRow(db.rows, row);
    var next := Post(db, row);
    forall u | u in next.balances ensures next.balances[u] == LedgerSum(next.rows, u) {
      TotalSnoc(db.rows, row, OfUser(u));
    }
  }

  lemma DepositAgrees(db: Db, user: string, amount: int, key: Key)
    requires Agrees(db) && CanDeposit(db, user, amount, key)
    ensures Agrees(AfterDeposit(db, user, amount, key))
  {
    hide TiedOut, KeyFree;
    PostTies(db, Row(user, Deposit, amount, db.balances[user] + amount, None, key));
  }

  lemma HoldAgrees(db: Db, user: string, hold: int, id: string, key: Key)
    requires Agrees(db) && CanHold(db, user, hold, key)
    ensures Agrees(AfterHold(db, user, hold, id, key))
  {
    hide TiedOut, KeyFree;
    PostTies(db, Row(user, Hold, -hold, db.balances[user] - hold, Some(id), key));
  }

  /** A committed hold lowers the balance exactly when it is positive; a negative one credits the user. */
  lemma HoldDebits(db: Db, user: string, hold: int, id: string, key: Key)
    requires CanHold(db, user, hold, key)
    ensures user in AfterHold(db, user, hold, id, key).balances
    ensures AfterHold(db, user, hold, id, key).balances[user] < db.balances[user] <==> hold > 0
    ensures AfterHold(db, user, hold, id, key).balances[user] > db.balances[user] <==> hold < 0
  {
  }

  lemma KeyFreeSnoc(rows: seq<Row>, row: Row, key: Key)
    ensures KeyFree(rows + [row], key) <==> KeyFree(rows, key) && row.key != key
  {
    if KeyFree(rows + [row], key) {
      forall i | 0 <= i < |rows| ensures rows[i].key != key {
        assert (rows + [row])[i] == rows[i];
      }
      assert (rows + [row])[|rows|] == row;
    }
  }

  /** The capture half of a settlement: one posting at most, under its own key only. */
  lemma CaptureTies(db: Db, user: string, id: string, capture: int, ref: string)
    requires TiedOut(db) && user in db.balances
    requires capture > 0 ==> KeyFree(db.rows, CaptureKey(ref))
    ensures TiedOut(AfterCapture(db, user, id, capture, ref))
  {
    hide UniqueKeys, RunningBalances, LedgerSum, Total;
    if capture > 0 {
      PostTies(db, Row(user, Capture, -capture, db.balances[user] - capture, Some(id), CaptureKey(ref)));
    }
  }

  lemma ReleaseTies(db: Db, user: string, id: string, release: int, ref: string)
    requires TiedOut(db) && user in db.balances
    requires release > 0 ==> KeyFree(db.rows, ReleaseKey(ref))
    ensures TiedOut(AfterRelease(db, user, id, release, ref))
  {
    if release > 0 {
      PostTies(db, Row(user, Release, release, db.balances[user] + release, Some(id), ReleaseKey(ref)));
    }
  }

  lemma ReleaseKeyAfterCapture(db: Db, user: string, id: string, capture: int, ref: string)
    requires user in db.balances
    ensures KeyFree(AfterCapture(db, user, id, capture, ref).rows, ReleaseKey(ref)) <==> KeyFree(db.rows, ReleaseKey(ref))
  {
    if capture > 0 {
      KeyFreeSnoc(db.rows, Row(user, Capture, -capture, db.balances[user] - capture, Some(id), CaptureKey(ref)), ReleaseKey(ref));
    }
  }

  /** Only the settled user's balance moves, by release - capture. */
  lemma SettleMoves(db: Db, user: string, id: string, capture: int, release: int, status: Status, clientKey: string)
    requires user in db.balances
    ensures AfterSettle(db, user, id, capture, release, status, clientKey).balances
         == db.balances[user := db.balances[user] - Max(capture, 0) + Max(release, 0)]
  {
  }

  lemma CanSettleUser(db: Db, user: string, id: string, capture: int, release: int, clientKey: string)
    requires CanSettle(db, user, id, capture, release, clientKey)
    ensures user in db.balances
  {
  }

  /** What a settlement leaves alone: committed rows, sessions, other logs, and whose log it is. */
  lemma SettleFrame(db: Db, user: string, id: string, capture: int, release: int, status: Status, clientKey: string)
    requires user in db.balances
    ensures var t := AfterSettle(db, user, id, capture, release, status, clientKey);
            && db.rows <= t.rows && t.sessions == db.sessions && t.logs.Keys == db.logs.Keys
            && (forall x | x in db.logs && x != id :: t.logs[x] == db.logs[x])
            && (forall x | x in db.logs :: t.logs[x].user == db.logs[x].user)
  {
  }

  lemma SettleAgrees(db: Db, user: string, id: string, capture: int, release: int, status: Status, clientKey: string)
    requires Agrees(db) && CanSettle(db, user, id, capture, release, clientKey)
    ensures Agrees(AfterSettle(db, user, id, capture, release, status, clientKey))
  {
    var ref := KeyRef(id, clientKey);
    hide UniqueKeys, RunningBalances, LedgerSum, Total;
    var mid := AfterCapture(db, user, id, capture, ref);
    CaptureTies(db, user, id, capture, ref);
    ReleaseKeyAfterCapture(db, user, id, capture, ref);
    ReleaseTies(mid, user, id, release, ref);
    SettleMoves(db, user, id, capture, release, status, clientKey);
  }

  // ----- reconciliation -----

  /** Reconciliation with auto-fix, run without interference. */
  ghost function Reconciled(db: Db, user: string): Db {
    SetBalance(db, user, LedgerSum(db.rows, user))
  }

  /** Where balances agree there is nothing to fix; where one drifted and its ledger sum is not
      negative, the fix restores agreement for that user, and a second pass changes nothing. */
  lemma ReconcileRestores(db: Db, user: string)
    requires user in db.balances
    ensures Agrees(db) ==> Reconciled(db, user) == db
    ensures LedgerSum(db.rows, user) >= 0 ==> Reconciled(db, user).balances[user] == LedgerSum(db.rows, user)
    ensures LedgerSum(db.rows, user) < 0 ==> Reconciled(db, user) == db
    ensures Reconciled(Reconciled(db, user), user) == Reconciled(db, user)
    ensures forall u | u in db.balances && u != user :: Reconciled(db, user).balances[u] == db.balances[u]
  {
    if Agrees(db) {
      assert db.balances[user := LedgerSum(db.rows, user)] == db.balances;
    }
    var once := Reconciled(db, user);
    if LedgerSum(db.rows, user) >= 0 {
      assert once.balances[user := LedgerSum(db.rows, user)] == once.balances;
    }
  }

  /** One user's turn of runReconciliation with auto-fix: the balance is read in state s0, the ledger in s1, and
      s2 is written only if the two differ. */
  ghost function ReconcileTurn(s0: Db, s1: Db, s2: Db, user: string): Db
    requires user in s0.balances
  {
    var cached, ledger := s0.balances[user], LedgerSum(s1.rows, user);
    if ledger != cached then SetBalance(s2, user, ledger) else s2
  }

  /** With transactions between its statements the turn keeps agreement exactly when the user's sum stood still
      in at least one of the two gaps: one transaction is never enough for drift. */
  lemma StaleReconcile(s0: Db, s1: Db, s2: Db, user: string)
    requires Agrees(s0) && Agrees(s1) && Agrees(s2)
    requires user in s0.balances && user in s1.balances && user in s2.balances
    ensures Agrees(ReconcileTurn(s0, s1, s2, user)) <==>
            LedgerSum(s1.rows, user) == LedgerSum(s0.rows, user) || LedgerSum(s2.rows, user) == LedgerSum(s1.rows, user)
    ensures ReconcileTurn(s0, s0, s0, user) == s0
  {
    StaleWrite(s2, user, LedgerSum(s1.rows, user));
  }

  /** A value written into an agreeing state keeps agreement exactly when it is the ledger sum. */
  lemma StaleWrite(now: Db, user: string, sum: int)
    requires Agrees(now) && user in now.balances && sum >= 0
    ensures Agrees(SetBalance(now, user, sum)) <==> LedgerSum(now.rows, user) == sum
  {
    var fixed := SetBalance(now, user, sum);
    assert fixed.balances[user] == sum;
    if LedgerSum(now.rows, user) == sum {
      assert fixed.balances == now.balances;
    }
  }

  // ----- the store as it runs -----

  class Store {
    var balances: map<string, int>
    var rows: seq<Row>
    var logs: map<string, UsageLog>
    var sessions: map<string, Session>

    ghost function View(): Db
      reads this
    {
      Db(balances, rows, logs, sessions)
    }

    constructor ()
      ensures View() == Db(map[], [], map[], map[])
    {
      balances, rows, logs, sessions := map[], [], map[], map[];
    }

    method DepositCredits(user: string, amount: int, idempotencyKey: string) returns (r: Result<int, StoreError>)
      modifies this
      ensures r.Ok? <==> CanDeposit(old(View()), user, amount, Parse(idempotencyKey))
      ensures r.Ok? ==> View() == AfterDeposit(old(View()), user, amount, Parse(idempotencyKey))
      ensures r.Ok? ==> r.value == balances[user]
      ensures r.Err? ==> View() == old(View())
    {
      if user !in balances {
        return Err(NoSuchUser);
      }
      var balance := balances[user] + amount;
      if balance < 0 {
        return Err(CheckViolation);
      }
      if !KeyFree(rows, Parse(idempotencyKey)) {
        return Err(DuplicateKey);
      }
      balances := balances[user := balance];
      rows := rows + [Row(user, Deposit, amount, balance, None, Parse(idempotencyKey))];
      return Ok(balance);
    }

    method ApplyHold(user: string, hold: int, id: string, key: Key) returns (r: Result<int, StoreError>)
      modifies this
      ensures r.Ok? <==> CanHold(old(View()), user, hold, key)
      ensures r.Ok? ==> View() == AfterHold(old(View()), user, hold, id, key)
      ensures r.Ok? ==> r.value == balances[user] >= 0
      ensures r.Err? ==> View() == old(View())
    {
      if user !in balances {
        return Err(NoSuchUser);
      }
      var balance := balances[user];
      if balance < hold {
        return Err(InsufficientCredits);
      }
      var newBalance := balance - hold;
      if !KeyFree(rows, key) {
        return Err(DuplicateKey);
      }
      balances := balances[user := newBalance];
      rows := rows + [Row(user, Hold, -hold, newBalance, Some(id), key)];
      return Ok(newBalance);
    }

    /** One transaction with a running balance: capture row, release row, balance, usage log. */
    method CaptureAndRelease(user: string, id: string, capture: int, release: int, status: Status, clientKey: string)
      returns (r: Result<(Option<nat>, Option<nat>), StoreError>)
      modifies this
      ensures r.Ok? <==> CanSettle(old(View()), user, id, capture, release, clientKey)
      ensures r.Ok? ==> View() == AfterSettle(old(View()), user, id, capture, release, status, clientKey)
      ensures r.Ok? ==> r.value.0 == if capture > 0 then Some(|old(rows)|) else None
      ensures r.Ok? ==> r.value.1 == if release > 0 then Some(|rows| - 1) else None
      ensures r.Err? ==> View() == old(View())
    {
      hide KeyRef, KeyFree;
      var captureKey := CaptureKey(id);
      var releaseKey := ReleaseKey(id);
      if clientKey != "" {
        captureKey := CaptureKey(clientKey);
        releaseKey := ReleaseKey(clientKey);
      }
      ghost var ref := KeyRef(id, clientKey);
      KeyRefCases(id, clientKey);
      assert captureKey == CaptureKey(ref) && releaseKey == ReleaseKey(ref);
      if user !in balances {
        return Err(NoSuchUser);
      }
      var balance := balances[user];
      var txnRows := rows;
      var captureTxn: Option<nat> := None;
      var releaseTxn: Option<nat> := None;
      ghost var mid := AfterCapture(View(), user, id, capture, ref);
      if capture > 0 {
        balance := balance - capture;
        if !KeyFree(txnRows, captureKey) {
          return Err(DuplicateKey);
        }
        captureTxn := Some(|txnRows|);
        txnRows := txnRows + [Row(user, Capture, -capture, balance, Some(id), captureKey)];
      }
      assert txnRows == mid.rows && balance == mid.balances[user];
      ReleaseKeyAfterCapture(View(), user, id, capture, ref);
      ghost var end := AfterRelease(mid, user, id, release, ref);
      if release > 0 {
        balance := balance + release;
        if !KeyFree(txnRows, releaseKey) {
          return Err(DuplicateKey);
        }
        releaseTxn := Some(|txnRows|);
        txnRows := txnRows + [Row(user, Release, release, balance, Some(id), releaseKey)];
      }
      assert txnRows == end.rows && balance == end.balances[user];
      if balance < 0 {
        return Err(CheckViolation);
      }
      balances := balances[user := balance];
      rows := txnRows;
      assert balances == end.balances;
      if id in logs {
        logs := logs[id := logs[id].(status := status, captured := capture,
                     captureTxn := captureTxn, releaseTxn := releaseTxn)];
      }
      return Ok((captureTxn, releaseTxn));
    }

    /** INSERT INTO usage_logs: request_id is UNIQUE. */
    method CreateUsageLog(id: string, user: string, hold: int) returns (ok: bool)
      modifies this
      ensures ok <==> id !in old(logs)
      ensures View() == InsertLog(old(View()), id, user, hold)
    {
      ok := id !in logs;
      if ok {
        logs := logs[id := UsageLog(user, Pending, hold, 0, None, None)];
      }
    }

    /** INSERT INTO metering_sessions: request_id is the primary key, user_id references users. */
    method CreateMeteringSession(id: string, user: string, hold: int, expires: int) returns (ok: bool)
      modifies this
      ensures ok <==> id !in old(sessions) && user in old(balances)
      ensures View() == InsertSession(old(View()), id, user, hold, expires)
    {
      ok := id !in sessions && user in balances;
      if ok {
        sessions := sessions[id := Session(user, hold, expires)];
      }
    }

    method DeleteMeteringSession(id: string)
      modifies this
      ensures View() == DeleteSession(old(View()), id)
    {
      sessions := sessions - {id};
    }

    method SetUserBalanceFromLedger(user: string, ledgerSum: int)
      modifies this
      ensures View() == SetBalance(old(View()), user, ledgerSum)
    {
      if user in balances && ledgerSum >= 0 {
        balances := balances[user := ledgerSum];
      }
    }
  }
}
