/**
 Where the credits are, after any run: each balance is what was deposited less what every
 request was charged, and the charge follows from the request's outcome.
 */
module Conservation {
  import opened Base
  import opened Ledger
  import opened Billing
  import opened Outcomes

  function DepositsOf(user: string): Row -> int {
    (r: Row) => if r.user == user && r.kind == Deposit then r.amount else 0
  }

  function OfRef(id: string): Row -> int {
    (r: Row) => if r.ref == Some(id) then r.amount else 0
  }

  ghost function Deposited(rows: seq<Row>, user: string): int { Total(rows, DepositsOf(user)) }

  /** Everything the ledger took from a user for one request, net. */
  ghost function Charge(rows: seq<Row>, id: string): int { -Total(rows, OfRef(id)) }

  ghost function Charges(rows: seq<Row>): string -> int { (id: string) => Charge(rows, id) }

  /** The user's requests, in the order their holds committed. */
  ghost function HoldIds(rows: seq<Row>, user: string): seq<string> {
    if rows == [] then []
    else
      var front := HoldIds(rows[..|rows| - 1], user);
      var last := rows[|rows| - 1];
      if last.kind == Hold && last.user == user && last.ref.Some? then front + [last.ref.value] else front
  }

  ghost function SumOver(ids: seq<string>, f: string -> int): int {
    if ids == [] then 0 else SumOver(ids[..|ids| - 1], f) + f(ids[|ids| - 1])
  }

  // ----- sums over distinct ids -----

  lemma {:induction false} SumSame(ids: seq<string>, f: string -> int, g: string -> int)
    requires forall i | 0 <= i < |ids| :: f(ids[i]) == g(ids[i])
    ensures SumOver(ids, f) == SumOver(ids, g)
  {
    if ids != [] {
      SumSame(ids[..|ids| - 1], f, g);
    }
  }

  /** Two functions that differ by d at x alone have sums that differ by d, if x is listed. */
  lemma {:induction false} SumShift(ids: seq<string>, f: string -> int, g: string -> int, x: string, d: int)
    requires Distinct(ids)
    requires forall y :: g(y) == f(y) + (if y == x then d else 0)
    ensures SumOver(ids, g) == SumOver(ids, f) + (if x in ids then d else 0)
  {
    if ids != [] {
      var last := |ids| - 1;
      SumShift(ids[..last], f, g, x, d);
      assert ids == ids[..last] + [ids[last]];
    }
  }

  // ----- deposits and requests account for every row of a user -----

  ghost predicate Covered(rows: seq<Row>, user: string, ids: seq<string>) {
    forall i | 0 <= i < |rows| ::
      if rows[i].kind == Deposit then rows[i].ref == None
      else rows[i].ref.Some? && (rows[i].user == user <==> rows[i].ref.value in ids)
  }

  lemma {:induction false} SumByRequest(rows: seq<Row>, user: string, ids: seq<string>)
    requires Distinct(ids) && Covered(rows, user, ids)
    ensures LedgerSum(rows, user) == Deposited(rows, user) - SumOver(ids, Charges(rows))
  {
    if rows == [] {
      ZeroCharges(ids);
    } else {
      var front, last := rows[..|rows| - 1], rows[|rows| - 1];
      assert Covered(front, user, ids);
      SumByRequest(front, user, ids);
      assert rows == front + [last];
      if last.ref.Some? {
        forall y ensures Charges(rows)(y) == Charges(front)(y) + (if y == last.ref.value then -last.amount else 0) {
          TotalSnoc(front, last, OfRef(y));
        }
        SumShift(ids, Charges(front), Charges(rows), last.ref.value, -last.amount);
      } else {
        forall i | 0 <= i < |ids| ensures Charges(front)(ids[i]) == Charges(rows)(ids[i]) {
          TotalSnoc(front, last, OfRef(ids[i]));
        }
        SumSame(ids, Charges(front), Charges(rows));
      }
    }
  }

  lemma {:induction false} ZeroCharges(ids: seq<string>)
    ensures SumOver(ids, Charges([])) == 0
  {
    if ids != [] {
      ZeroCharges(ids[..|ids| - 1]);
    }
  }

  // ----- the listed ids are the user's requests, each once -----

  lemma {:induction false} HoldIdsList(rows: seq<Row>, user: string, x: string)
    ensures x in HoldIds(rows, user) <==>
            exists i | 0 <= i < |rows| :: rows[i].kind == Hold && rows[i].user == user && rows[i].ref == Some(x)
  {
    if rows != [] {
      var n := |rows| - 1;
      var front := rows[..n];
      HoldIdsList(front, user, x);
      if i :| 0 <= i < |rows| && rows[i].kind == Hold && rows[i].user == user && rows[i].ref == Some(x) {
        if i < n {
          assert front[i] == rows[i];
        }
      }
      if x in HoldIds(front, user) {
        var i :| 0 <= i < |front| && front[i].kind == Hold && front[i].user == user && front[i].ref == Some(x);
        assert rows[i] == front[i];
      }
    }
  }

  lemma {:induction false} HoldIdsDistinct(requests: map<string, Request>, rows: seq<Row>, user: string)
    requires UniqueKeys(rows) && RowsShaped(requests, rows)
    ensures Distinct(HoldIds(rows, user))
  {
    if rows != [] {
      var n := |rows| - 1;
      var front, last := rows[..n], rows[n];
      HoldIdsDistinct(requests, front, user);
      if last.kind == Hold && last.user == user && last.ref.Some? {
        var x := last.ref.value;
        HoldIdsList(front, user, x);
        assert RowShape(requests, last);
        forall i | 0 <= i < n ensures front[i].kind != Hold || front[i].ref != Some(x) {
          assert front[i] == rows[i] && rows[i].key != rows[n].key;
          assert RowShape(requests, rows[i]);
        }
      }
    }
  }

  lemma RequestsListed(s: Core, user: string)
    requires Sound(s)
    ensures Distinct(HoldIds(s.db.rows, user))
    ensures forall x :: x in HoldIds(s.db.rows, user) <==> x in s.requests && s.requests[x].user == user
  {
    hide RunningBalances, LedgerSum, HoldIds;
    var rows := s.db.rows;
    HoldIdsDistinct(s.requests, rows, user);
    forall x ensures x in HoldIds(rows, user) <==> x in s.requests && s.requests[x].user == user {
      HoldIdsList(rows, user, x);
      if i :| 0 <= i < |rows| && rows[i].kind == Hold && rows[i].user == user && rows[i].ref == Some(x) {
        assert RowShape(s.requests, rows[i]);
      }
      if x in s.requests && s.requests[x].user == user {
        assert HasHoldRow(rows, x);
        var i :| 0 <= i < |rows| && rows[i].kind == Hold && rows[i].ref == Some(x);
        assert RowShape(s.requests, rows[i]);
      }
    }
  }

  lemma SoundSum(s: Core, user: string)
    requires Sound(s)
    ensures LedgerSum(s.db.rows, user) == Deposited(s.db.rows, user) - SumOver(HoldIds(s.db.rows, user), Charges(s.db.rows))
  {
    hide RunningBalances, LedgerSum, HoldIds, Deposited, SumOver, Charges;
    var rows := s.db.rows;
    var ids := HoldIds(rows, user);
    RequestsListed(s, user);
    forall i | 0 <= i < |rows|
      ensures if rows[i].kind == Deposit then rows[i].ref == None
              else rows[i].ref.Some? && (rows[i].user == user <==> rows[i].ref.value in ids)
    {
      assert RowShape(s.requests, rows[i]);
    }
    SumByRequest(rows, user, ids);
  }

  /** Conservation over whole runs: balance = deposits - the charges of the user's requests. */
  lemma BalanceIsDepositsLessCharges(steps: seq<Step>, user: string)
    requires user in Run(steps).db.balances
    ensures var s := Run(steps);
            s.db.balances[user] == Deposited(s.db.rows, user) - SumOver(HoldIds(s.db.rows, user), Charges(s.db.rows))
  {
    Reachable(steps);
    SoundSum(Run(steps), user);
  }

  // ----- what one request is charged -----

  function SettlementOf(id: string): Row -> int {
    (r: Row) => if r.ref == Some(id) && (r.kind == Capture || r.kind == Release) then r.amount else 0
  }

  lemma ChargeByKind(requests: map<string, Request>, rows: seq<Row>, id: string)
    requires RowsShaped(requests, rows)
    ensures Charge(rows, id) == Held(rows, id) + Captured(rows, id) - Released(rows, id)
  {
    var settlement := SettlementOf(id);
    forall i | 0 <= i < |rows| ensures OfRef(id)(rows[i]) == OfKind(id, Hold)(rows[i]) + settlement(rows[i]) {
      assert RowShape(requests, rows[i]);
    }
    TotalSplit(rows, OfRef(id), OfKind(id, Hold), settlement);
    TotalSplit(rows, settlement, OfKind(id, Capture), OfKind(id, Release));
  }

  /** A request with no settlement row yet. */
  ghost predicate Open(rows: seq<Row>, id: string) {
    Captured(rows, id) == 0 && Released(rows, id) == 0
  }

  /** The charge the design asks for: the hold while it is open, the capture once it is settled. */
  ghost function IntendedCharge(rows: seq<Row>, id: string): int {
    if Open(rows, id) then Held(rows, id) else Captured(rows, id)
  }

  /** As written, a settled request without a client key costs twice its capture, because the hold was
      already debited when the capture is debited again; only the doubly settled one costs its hold.
      The design's charge is met exactly when the whole hold came back. */
  lemma ChargeAsWritten(steps: seq<Step>, id: string)
    requires id in Run(steps).requests
    ensures var s := Run(steps);
            var rows := s.db.rows;
            var h, c, r := s.requests[id].hold, Captured(rows, id), Released(rows, id);
            && Charge(rows, id) == h + c - r
            && (KeyRef(id, s.requests[id].clientKey) == id ==>
                 && (Open(rows, id) ==> Charge(rows, id) == h)
                 && (!Open(rows, id) && r == h - c ==> Charge(rows, id) == 2 * c)
                 && (!Open(rows, id) && r != h - c ==> c == h && r == h && Charge(rows, id) == h)
                 && Charge(rows, id) >= IntendedCharge(rows, id)
                 && (Charge(rows, id) == IntendedCharge(rows, id) <==> Open(rows, id) || r == h)
                 && (!Open(rows, id) && r == h - c ==>
                       (Charge(rows, id) == IntendedCharge(rows, id) <==> c == 0)))
  {
    hide Held, Captured, Released, Charge, Sound;
    Reachable(steps);
    RequestOutcome(steps, id);
    HoldPositive(Run(steps), id);
    ChargeByKind(Run(steps).requests, Run(steps).db.rows, id);
  }

  // ----- the gap between the ledger as written and the design, per user -----

  ghost function Intended(rows: seq<Row>): string -> int { (id: string) => IntendedCharge(rows, id) }

  lemma {:induction false} SumAtLeast(ids: seq<string>, f: string -> int, g: string -> int)
    requires forall i | 0 <= i < |ids| :: f(ids[i]) >= g(ids[i])
    ensures SumOver(ids, f) >= SumOver(ids, g)
    ensures SumOver(ids, f) == SumOver(ids, g) <==> forall i | 0 <= i < |ids| :: f(ids[i]) == g(ids[i])
  {
    if ids != [] {
      var n := |ids| - 1;
      var front := ids[..n];
      SumAtLeast(front, f, g);
      if SumOver(ids, f) == SumOver(ids, g) {
        forall i | 0 <= i < |ids| ensures f(ids[i]) == g(ids[i]) {
          if i < n {
            assert front[i] == ids[i];
          }
        }
      } else if forall i | 0 <= i < |ids| :: f(ids[i]) == g(ids[i]) {
        SumSame(ids, f, g);
      }
    }
  }

  lemma {:induction false} SumPlus(ids: seq<string>, whole: string -> int, f: string -> int, g: string -> int)
    requires forall i | 0 <= i < |ids| :: whole(ids[i]) == f(ids[i]) + g(ids[i])
    ensures SumOver(ids, whole) == SumOver(ids, f) + SumOver(ids, g)
  {
    if ids != [] {
      SumPlus(ids[..|ids| - 1], whole, f, g);
    }
  }

  /** What a settled request's hold has not given back; negative when it gave back more. */
  ghost function Kept(s: Core): string -> int {
    (id: string) => if id !in s.requests || Open(s.db.rows, id) then 0 else s.requests[id].hold - Released(s.db.rows, id)
  }

  /** Per request, the charge exceeds the designed one by what its hold has not given back. */
  lemma ChargeGap(steps: seq<Step>, id: string)
    requires id in Run(steps).requests
    ensures var s := Run(steps);
            && Charge(s.db.rows, id) == IntendedCharge(s.db.rows, id) + Kept(s)(id)
            && (s.requests[id].clientKey == "" ==> Kept(s)(id) >= 0)
  {
    hide Held, Captured, Released, Charge, Sound;
    ChargeAsWritten(steps, id);
    RequestOutcome(steps, id);
  }

  /** The balance is the designed one less what the holds of settled requests have not given back.  For a user
      none of whose requests sent a client key it is therefore at most the designed one, and equals it
      exactly when every settled request got its whole hold back. */
  lemma DesignGap(steps: seq<Step>, user: string)
    requires user in Run(steps).db.balances
    ensures var s := Run(steps);
            var rows := s.db.rows;
            var designed := Deposited(rows, user) - SumOver(HoldIds(rows, user), Intended(rows));
            && s.db.balances[user] == designed - SumOver(HoldIds(rows, user), Kept(s))
            && ((forall id | id in s.requests && s.requests[id].user == user :: s.requests[id].clientKey == "") ==>
                 && s.db.balances[user] <= designed
                 && (s.db.balances[user] == designed <==>
                       forall id | id in s.requests && s.requests[id].user == user ::
                         Open(rows, id) || Released(rows, id) == s.requests[id].hold))
  {
    hide HoldIds, Charge, IntendedCharge, Deposited, Sound, Open, Released;
    var s := Run(steps);
    var rows := s.db.rows;
    var ids := HoldIds(rows, user);
    BalanceIsDepositsLessCharges(steps, user);
    Reachable(steps);
    RequestsListed(s, user);
    forall i | 0 <= i < |ids|
      ensures ids[i] in s.requests && s.requests[ids[i]].user == user
      ensures Charges(rows)(ids[i]) == Intended(rows)(ids[i]) + Kept(s)(ids[i])
      ensures s.requests[ids[i]].clientKey == "" ==> Kept(s)(ids[i]) >= 0
    {
      assert ids[i] in ids;
      ChargeGap(steps, ids[i]);
    }
    SumPlus(ids, Charges(rows), Intended(rows), Kept(s));
    if forall id | id in s.requests && s.requests[id].user == user :: s.requests[id].clientKey == "" {
      SumAtLeast(ids, Kept(s), (_: string) => 0);
      SumOfZeros(ids);
    }
  }

  lemma {:induction false} SumOfZeros(ids: seq<string>)
    ensures SumOver(ids, (_: string) => 0) == 0
  {
    if ids != [] {
      SumOfZeros(ids[..|ids| - 1]);
    }
  }

  // ----- how large a balance can get -----

  ghost function Holds(requests: map<string, Request>): string -> int {
    (id: string) => if id in requests then requests[id].hold else 0
  }

  ghost function Negated(f: string -> int): string -> int { (id: string) => -f(id) }

  lemma {:induction false} SumNegated(ids: seq<string>, f: string -> int)
    ensures SumOver(ids, Negated(f)) == -SumOver(ids, f)
  {
    if ids != [] {
      SumNegated(ids[..|ids| - 1], f);
    }
  }

  /** No balance exceeds the user's deposits plus everything the user ever held, so 64-bit amounts suffice
      for as long as that total fits. */
  lemma BalanceBound(steps: seq<Step>, user: string)
    requires user in Run(steps).db.balances
    ensures var s := Run(steps);
            0 <= s.db.balances[user] <= Deposited(s.db.rows, user) + SumOver(HoldIds(s.db.rows, user), Holds(s.requests))
  {
    hide HoldIds, Charge, Deposited, Sound, Captured, Released, Held;
    var s := Run(steps);
    var rows := s.db.rows;
    var ids := HoldIds(rows, user);
    BalanceIsDepositsLessCharges(steps, user);
    Reachable(steps);
    RequestsListed(s, user);
    forall i | 0 <= i < |ids| ensures Charges(rows)(ids[i]) >= Negated(Holds(s.requests))(ids[i]) {
      assert ids[i] in ids;
      ChargeAsWritten(steps, ids[i]);
      RequestOutcome(steps, ids[i]);
    }
    SumAtLeast(ids, Charges(rows), Negated(Holds(s.requests)));
    SumNegated(ids, Holds(s.requests));
  }
}
