/**
 The ledger worker process: processing and acknowledging batches, sweeping expired sessions and
 reconciling balances, as the loops run when nothing interferes.
 */
module LedgerWorker {
  import opened Base
  import opened Keys
  import opened Ledger
  import opened Billing
  import opened Outcomes
  import Q = Queue

  /** The part of the Redis client the worker uses.  `acked` only remembers why entries left. */
  class Client {
    var cache: map<string, int>
    var stream: seq<Q.Event>
    var cursor: nat
    var pending: map<nat, int>
    var dead: seq<Q.Event>
    ghost var acked: map<nat, Q.Fate>

    ghost function View(): Q.Stream
      reads this
    {
      Q.Stream(stream, cursor, pending, acked, dead)
    }

    constructor ()
      ensures View() == Q.EMPTY && cache == map[]
    {
      cache, stream, cursor, pending, dead, acked := map[], [], 0, map[], [], map[];
    }

    method EmitMeterEvent(ev: Q.Event)
      modifies this`stream
      ensures View() == Q.Emit(old(View()), ev) && stream == old(stream) + [ev]
    {
      stream := stream + [ev];
    }

    /** XREADGROUP COUNT count: the next messages in order, each delivered once. */
    method ReadMeterEvents(count: nat) returns (msgs: seq<nat>)
      modifies this`cursor, this`pending
      requires Q.Accounted(View())
      ensures Q.Accounted(View())
      ensures |msgs| == Min(count, |stream| - old(cursor)) && cursor == old(cursor) + |msgs|
      ensures forall i | 0 <= i < |msgs| :: msgs[i] == old(cursor) + i
      ensures forall m :: m in pending <==> m in old(pending) || old(cursor) <= m < cursor
      ensures forall m | m in pending :: pending[m] == if m in old(pending) then old(pending)[m] else 1
    {
      msgs := [];
      var start := cursor;
      while |msgs| < count && cursor < |stream|
        invariant Q.Accounted(View())
        invariant |msgs| <= count && start == old(cursor) && cursor == start + |msgs| <= |stream|
        invariant forall i | 0 <= i < |msgs| :: msgs[i] == start + i
        invariant forall m :: m in pending <==> m in old(pending) || start <= m < cursor
        invariant forall m | m in pending :: pending[m] == if m in old(pending) then old(pending)[m] else 1
        decreases count - |msgs|
      {
        msgs := msgs + [cursor];
        pending := pending[cursor := 1];
        cursor := cursor + 1;
      }
    }

    /** XAUTOCLAIM: the first `count` entries, in stream order, among those idle long enough. */
    method AutoClaimMeterEvents(idle: set<nat>, count: nat) returns (msgs: seq<nat>)
      modifies this`pending
      requires Q.Accounted(View())
      ensures Q.Accounted(View()) && |msgs| <= count
      ensures forall i, j | 0 <= i < j < |msgs| :: msgs[i] < msgs[j]
      ensures forall m | m in msgs :: m in old(pending) && m in idle
      ensures forall m | m in old(pending) && m in idle && m !in msgs :: |msgs| == count && forall k | k in msgs :: k < m
      ensures pending.Keys == old(pending).Keys
      ensures forall m | m in pending :: pending[m] == old(pending)[m] + (if m in msgs then 1 else 0)
    {
      hide Q.Emit, Q.Deliver, Q.Reclaim, Q.Ack, Q.Bury;
      msgs := [];
      var next := 0;
      while |msgs| < count && next < cursor
        invariant Q.Accounted(View()) && |msgs| <= count && next <= cursor
        invariant forall i, j | 0 <= i < j < |msgs| :: msgs[i] < msgs[j]
        invariant forall m | m in msgs :: m in old(pending) && m in idle && m < next
        invariant forall m | m in old(pending) && m in idle && m < next :: m in msgs
        invariant pending.Keys == old(pending).Keys
        invariant forall m | m in pending :: pending[m] == old(pending)[m] + (if m in msgs then 1 else 0)
        decreases cursor - next
      {
        ghost var before := msgs;
        assert forall i | 0 <= i < |before| :: before[i] in before;
        if next in pending && next in idle {
          msgs := msgs + [next];
          assert forall m :: m in msgs <==> m in before || m == next;
          pending := pending[next := pending[next] + 1];
        }
        next := next + 1;
      }
    }

    method MessageDeliveries(m: nat) returns (n: int)
      ensures n == Q.Deliveries(View(), m) == Q.Count(View(), m)
    {
      n := if m in pending then pending[m] else 1;
    }

    method AckMeterEvent(m: nat, ghost fate: Q.Fate)
      modifies this`pending, this`acked
      ensures View() == Q.Ack(old(View()), m, fate)
      ensures pending == old(pending) - {m} && acked == if m in old(pending) then old(acked)[m := fate] else old(acked)
    {
      if m in pending {
        acked := acked[m := fate];
        pending := pending - {m};
      }
    }

    method PushDLQ(ev: Q.Event)
      modifies this`dead
      ensures View() == Q.Bury(old(View()), ev) && dead == old(dead) + [ev]
    {
      dead := dead + [ev];
    }
  }

  // ----- ProcessEvent, handleMessage, processBatch -----

  /** What one attempt does to the database: settle and drop the session, or nothing. */
  ghost function ProcessOne(db: Db, ev: Q.Event, price: Option<int>, status: Status): Db {
    if Processes(db, ev, price)
    then
      var (capture, release) := CaptureRelease(ev.hold, price.value);
      DeleteSession(AfterSettle(db, ev.user, ev.id, capture, release, status, ev.clientKey), ev.id)
    else db
  }

  ghost predicate Processes(db: Db, ev: Q.Event, price: Option<int>) {
    price.Some? &&
    var (capture, release) := CaptureRelease(ev.hold, price.value);
    CanSettle(db, ev.user, ev.id, capture, release, ev.clientKey)
  }

  ghost function ProcessAll(db: Db, evs: seq<Q.Event>, pricing: Q.Event -> Option<int>, status: Q.Event -> Status): Db {
    if evs == [] then db
    else
      var last := evs[|evs| - 1];
      ProcessOne(ProcessAll(db, evs[..|evs| - 1], pricing, status), last, pricing(last), status(last))
  }

  ghost predicate InStream(stream: seq<Q.Event>, msgs: seq<nat>) {
    forall i | 0 <= i < |msgs| :: msgs[i] < |stream|
  }

  ghost function ToDo(msgs: seq<nat>): set<nat> {
    set m | m in msgs
  }

  ghost function EventsAt(stream: seq<Q.Event>, msgs: seq<nat>): (evs: seq<Q.Event>)
    requires InStream(stream, msgs)
    ensures |evs| == |msgs|
  {
    seq(|msgs|, i requires 0 <= i < |msgs| => stream[msgs[i]])
  }

  /** The queue after handling `msgs` in order: each is acknowledged, buried or kept by what its own attempt
      does to the database its predecessors left. */
  ghost function HandleEach(q: Q.Stream, db: Db, msgs: seq<nat>, pricing: Q.Event -> Option<int>, status: Q.Event -> Status,
                            maxRetries: int): (r: Q.Stream)
    requires InStream(q.stream, msgs)
    ensures r.stream == q.stream
  {
    if msgs == [] then q
    else
      var front, m := msgs[..|msgs| - 1], msgs[|msgs| - 1];
      var before := ProcessAll(db, EventsAt(q.stream, front), pricing, status);
      Q.Handle(HandleEach(q, db, front, pricing, status, maxRetries), m,
               Processes(before, q.stream[m], pricing(q.stream[m])), maxRetries)
  }

  /** One more message. */
  lemma HandleEachSnoc(q: Q.Stream, db: Db, msgs: seq<nat>, i: nat, pricing: Q.Event -> Option<int>, status: Q.Event -> Status,
                       maxRetries: int)
    requires InStream(q.stream, msgs) && i < |msgs|
    ensures var before := ProcessAll(db, EventsAt(q.stream, msgs)[..i], pricing, status);
            && HandleEach(q, db, msgs[..i + 1], pricing, status, maxRetries)
               == Q.Handle(HandleEach(q, db, msgs[..i], pricing, status, maxRetries), msgs[i],
                           Processes(before, q.stream[msgs[i]], pricing(q.stream[msgs[i]])), maxRetries)
            && ProcessAll(db, EventsAt(q.stream, msgs)[..i + 1], pricing, status)
               == ProcessOne(before, q.stream[msgs[i]], pricing(q.stream[msgs[i]]), status(q.stream[msgs[i]]))
  {
    hide Q.Handle, Processes, ProcessOne;
    var evs := EventsAt(q.stream, msgs);
    assert msgs[..i + 1][..i] == msgs[..i] && EventsAt(q.stream, msgs[..i]) == evs[..i];
    assert evs[..i + 1][..i] == evs[..i] && evs[..i + 1][i] == q.stream[msgs[i]];
  }

  /** Whether the i-th message's own attempt commits, on the database its predecessors left. */
  ghost predicate Succeeds(db: Db, stream: seq<Q.Event>, msgs: seq<nat>, i: nat, pricing: Q.Event -> Option<int>,
                           status: Q.Event -> Status)
    requires InStream(stream, msgs) && i < |msgs|
  {
    Processes(ProcessAll(db, EventsAt(stream, msgs)[..i], pricing, status), stream[msgs[i]], pricing(stream[msgs[i]]))
  }

  /** The events of the first n messages that fail with their deliveries used up, in order. */
  ghost function UsedUp(deliveries: nat -> int, db: Db, stream: seq<Q.Event>, msgs: seq<nat>, n: nat,
                        pricing: Q.Event -> Option<int>, status: Q.Event -> Status, maxRetries: int): seq<Q.Event>
    requires InStream(stream, msgs) && n <= |msgs|
  {
    if n == 0 then []
    else
      UsedUp(deliveries, db, stream, msgs, n - 1, pricing, status, maxRetries)
      + (if !Succeeds(db, stream, msgs, n - 1, pricing, status) && deliveries(msgs[n - 1]) >= maxRetries
         then [stream[msgs[n - 1]]] else [])
  }

  lemma {:induction false} SameUsedUp(a: nat -> int, b: nat -> int, db: Db, stream: seq<Q.Event>, msgs: seq<nat>, n: nat,
                                      pricing: Q.Event -> Option<int>, status: Q.Event -> Status, maxRetries: int)
    requires InStream(stream, msgs) && n <= |msgs| && forall i | 0 <= i < n :: a(msgs[i]) == b(msgs[i])
    ensures UsedUp(a, db, stream, msgs, n, pricing, status, maxRetries) == UsedUp(b, db, stream, msgs, n, pricing, status, maxRetries)
  {
    hide Succeeds;
    if n > 0 {
      SameUsedUp(a, b, db, stream, msgs, n - 1, pricing, status, maxRetries);
    }
  }

  function CountIn(pending: map<nat, int>): nat -> int {
    (m: nat) => if m in pending then pending[m] else 1
  }

  /** Deliveries including the one of this batch. */
  function WithThisOne(pending: map<nat, int>): nat -> int {
    (m: nat) => if m in pending then pending[m] + 1 else 1
  }

  /** Where a message handled in a batch ends. */
  ghost predicate BatchFate(before: map<nat, int>, r: Q.Stream, m: nat, ok: bool, maxRetries: int) {
    if ok then m !in r.pending && m in r.acked && r.acked[m] == Q.Settled
    else if WithThisOne(before)(m) >= maxRetries then m !in r.pending && m in r.acked && r.acked[m] == Q.Dead
    else m in r.pending && r.pending[m] == WithThisOne(before)(m)
  }

  /** What handling a list of messages once does to the queue, message by message. */
  ghost predicate EachHandled(q: Q.Stream, r: Q.Stream, db: Db, msgs: seq<nat>, pricing: Q.Event -> Option<int>,
                              status: Q.Event -> Status, maxRetries: int)
    requires InStream(q.stream, msgs)
  {
    && r.dead == q.dead + UsedUp(CountIn(q.pending), db, q.stream, msgs, |msgs|, pricing, status, maxRetries)
    && (forall i | 0 <= i < |msgs| :: Handled(q, r, msgs[i], Succeeds(db, q.stream, msgs, i, pricing, status), maxRetries))
    && (forall k: nat | k !in msgs :: Q.Same(q, r, k))
  }

  ghost predicate NoRepeats(msgs: seq<nat>) {
    forall i, j | 0 <= i < j < |msgs| :: msgs[i] != msgs[j]
  }

  /** Where a handled message is: acknowledged as settled if its own attempt committed, and otherwise pending as it was,
      or acknowledged as dead when its deliveries are used up. */
  ghost predicate Handled(q: Q.Stream, r: Q.Stream, m: nat, ok: bool, maxRetries: int) {
    if ok then Q.AckedFor(q, r, m, Q.Settled)
    else if Q.Count(q, m) >= maxRetries then Q.AckedFor(q, r, m, Q.Dead)
    else Q.Same(q, r, m)
  }

  lemma {:induction false} HandleEachLaw(q: Q.Stream, db: Db, msgs: seq<nat>, n: nat, pricing: Q.Event -> Option<int>,
                                         status: Q.Event -> Status, maxRetries: int)
    requires InStream(q.stream, msgs) && n <= |msgs| && NoRepeats(msgs)
    ensures var r := HandleEach(q, db, msgs[..n], pricing, status, maxRetries);
            && r.dead == q.dead + UsedUp(CountIn(q.pending), db, q.stream, msgs, n, pricing, status, maxRetries) && r.cursor == q.cursor
            && (forall i | 0 <= i < n :: Handled(q, r, msgs[i], Succeeds(db, q.stream, msgs, i, pricing, status), maxRetries))
            && (forall k: nat | k !in msgs[..n] :: Q.Same(q, r, k))
  {
    hide Succeeds, Processes, ProcessAll, Q.Handle, Handled, Q.Same;
    if n > 0 {
      var front := HandleEach(q, db, msgs[..n - 1], pricing, status, maxRetries);
      var m := msgs[n - 1];
      var ok := Succeeds(db, q.stream, msgs, n - 1, pricing, status);
      HandleEachLaw(q, db, msgs, n - 1, pricing, status, maxRetries);
      HandleEachSnoc(q, db, msgs, n - 1, pricing, status, maxRetries);
      OwnAttempt(db, q.stream, msgs, n - 1, pricing, status);
      assert msgs[..n] == msgs[..n - 1] + [m];
      assert m !in msgs[..n - 1];
      var r := HandleEach(q, db, msgs[..n], pricing, status, maxRetries);
      HandleOne(q, front, r, m, ok, maxRetries);
      forall i | 0 <= i < n ensures Handled(q, r, msgs[i], Succeeds(db, q.stream, msgs, i, pricing, status), maxRetries) {
        if i < n - 1 {
          HandleOther(q, front, r, m, ok, msgs[i], Succeeds(db, q.stream, msgs, i, pricing, status), maxRetries);
        }
      }
      forall k: nat | k !in msgs[..n] ensures Q.Same(q, r, k) {
        SameOther(q, front, r, m, ok, k, maxRetries);
      }
    } else {
      assert msgs[..0] == [];
      forall k: nat ensures Q.Same(q, q, k) {
        SameSelf(q, k);
      }
    }
  }

  lemma EachIsHandled(q: Q.Stream, db: Db, msgs: seq<nat>, pricing: Q.Event -> Option<int>, status: Q.Event -> Status,
                      maxRetries: int)
    requires InStream(q.stream, msgs) && NoRepeats(msgs)
    ensures EachHandled(q, HandleEach(q, db, msgs, pricing, status, maxRetries), db, msgs, pricing, status, maxRetries)
  {
    hide Succeeds, Handled, Q.Same, HandleEach, UsedUp;
    HandleEachLaw(q, db, msgs, |msgs|, pricing, status, maxRetries);
    assert msgs[..|msgs|] == msgs;
  }

  lemma SameSelf(q: Q.Stream, k: nat)
    ensures Q.Same(q, q, k)
  {
  }

  lemma OwnAttempt(db: Db, stream: seq<Q.Event>, msgs: seq<nat>, i: nat, pricing: Q.Event -> Option<int>,
                   status: Q.Event -> Status)
    requires InStream(stream, msgs) && i < |msgs|
    ensures Succeeds(db, stream, msgs, i, pricing, status)
         == Processes(ProcessAll(db, EventsAt(stream, msgs)[..i], pricing, status), stream[msgs[i]], pricing(stream[msgs[i]]))
  {
  }

  lemma HandleOne(q: Q.Stream, front: Q.Stream, r: Q.Stream, m: nat, ok: bool, maxRetries: int)
    requires m < |front.stream| && Q.Same(q, front, m) && front.stream == q.stream
    requires r == Q.Handle(front, m, ok, maxRetries)
    ensures Handled(q, r, m, ok, maxRetries) && r.cursor == front.cursor
    ensures r.dead == front.dead + if !ok && Q.Count(q, m) >= maxRetries then [q.stream[m]] else []
  {
  }

  lemma HandleOther(q: Q.Stream, front: Q.Stream, r: Q.Stream, m: nat, ok: bool, k: nat, done: bool, maxRetries: int)
    requires m < |front.stream| && k != m && r == Q.Handle(front, m, ok, maxRetries)
    requires Handled(q, front, k, done, maxRetries)
    ensures Handled(q, r, k, done, maxRetries)
  {
  }

  lemma SameOther(q: Q.Stream, front: Q.Stream, r: Q.Stream, m: nat, ok: bool, k: nat, maxRetries: int)
    requires m < |front.stream| && k != m && r == Q.Handle(front, m, ok, maxRetries) && Q.Same(q, front, k)
    ensures Q.Same(q, r, k)
  {
  }

  /** Each user's balance and cache entry are both as before, or the cache entry is the new balance. */
  ghost predicate Refreshed(balances: map<string, int>, cache: map<string, int>, balances': map<string, int>, cache': map<string, int>) {
    balances'.Keys == balances.Keys &&
    forall u :: (u in cache' && u in balances' && cache'[u] == balances'[u])
                || ((u in cache' <==> u in cache) && (u in cache ==> cache'[u] == cache[u])
                    && (u in balances ==> balances'[u] == balances[u]))
  }

  class Worker {
    const store: Store
    const redis: Client
    const maxRetries: int

    constructor (store: Store, redis: Client, maxRetries: int)
      ensures this.store == store && this.redis == redis && this.maxRetries == maxRetries
    {
      this.store, this.redis, this.maxRetries := store, redis, maxRetries;
    }

    /** One event, priced by its driver and rate table; None when pricing failed. */
    method ProcessEvent(ev: Q.Event, price: Option<int>, status: Status) returns (ok: bool)
      modifies store, redis`cache
      ensures ok <==> Processes(old(store.View()), ev, price)
      ensures store.View() == ProcessOne(old(store.View()), ev, price, status)
      ensures ok ==> ev.user in old(store.balances) && ev.user in store.balances
                     && store.balances == old(store.balances)[ev.user := store.balances[ev.user]]
                     && redis.cache == old(redis.cache)[ev.user := store.balances[ev.user]]
      ensures !ok ==> redis.cache == old(redis.cache) && store.balances == old(store.balances)
    {
      if price == None {
        return false;
      }
      var (capture, release) := CaptureRelease(ev.hold, price.value);
      var txn := store.CaptureAndRelease(ev.user, ev.id, capture, release, status, ev.clientKey);
      if txn.Err? {
        return false;
      }
      ghost var settled := store.View();
      SettleMoves(old(store.View()), ev.user, ev.id, capture, release, status, ev.clientKey);
      store.DeleteMeteringSession(ev.id);
      assert store.balances == settled.balances;
      if ev.user in store.balances {
        redis.cache := redis.cache[ev.user := store.balances[ev.user]];
      }
      return true;
    }

    /** Acknowledge on success; on failure leave pending, or bury and acknowledge at the retry limit. */
    method HandleMessage(m: nat, price: Option<int>, status: Status) returns (ok: bool)
      requires m < |redis.stream|
      modifies store, redis`cache, redis`pending, redis`acked, redis`dead
      ensures ok <==> Processes(old(store.View()), redis.stream[m], price)
      ensures store.View() == ProcessOne(old(store.View()), redis.stream[m], price, status)
      ensures redis.View() == Q.Handle(old(redis.View()), m, ok, maxRetries)
      ensures forall k: nat | k != m :: Q.Same(old(redis.View()), redis.View(), k)
      ensures ok ==> Q.AckedFor(old(redis.View()), redis.View(), m, Q.Settled) && redis.dead == old(redis.dead)
      ensures !ok && Q.Count(old(redis.View()), m) < maxRetries ==> redis.View() == old(redis.View())
      ensures !ok && Q.Count(old(redis.View()), m) >= maxRetries ==>
                Q.AckedFor(old(redis.View()), redis.View(), m, Q.Dead) && redis.dead == old(redis.dead) + [redis.stream[m]]
      ensures Refreshed(old(store.balances), old(redis.cache), store.balances, redis.cache)
    {
      Q.HandleLaw(redis.View(), m, true, maxRetries);
      Q.HandleLaw(redis.View(), m, false, maxRetries);
      var ev := redis.stream[m];
      ok := ProcessEvent(ev, price, status);
      if !ok {
        var deliveries := redis.MessageDeliveries(m);
        if deliveries >= maxRetries {
          redis.PushDLQ(ev);
          redis.AckMeterEvent(m, Q.Dead);
        }
        return;
      }
      redis.AckMeterEvent(m, Q.Settled);
    }

    /** Handle delivered messages one after the other. */
    method HandleAll(msgs: seq<nat>, pricing: Q.Event -> Option<int>, status: Q.Event -> Status)
      requires Q.Accounted(redis.View())
      requires InStream(redis.stream, msgs)
      requires Q.RetryableExcept(redis.View(), maxRetries, ToDo(msgs))
      modifies store, redis`cache, redis`pending, redis`acked, redis`dead
      ensures Q.Accounted(redis.View()) && Q.Retryable(redis.View(), maxRetries)
      ensures store.View() == ProcessAll(old(store.View()), EventsAt(redis.stream, msgs), pricing, status)
      ensures redis.View() == HandleEach(old(redis.View()), old(store.View()), msgs, pricing, status, maxRetries)
      ensures NoRepeats(msgs) ==>
                EachHandled(old(redis.View()), redis.View(), old(store.View()), msgs, pricing, status, maxRetries)
      ensures Refreshed(old(store.balances), old(redis.cache), store.balances, redis.cache)
      ensures forall m | m in redis.pending :: m in old(redis.pending)
    {
      hide Q.Handle, Q.Accounted, Q.RetryableExcept, Processes, ProcessOne, Refreshed, EachHandled, Succeeds;
      ghost var evs := EventsAt(redis.stream, msgs);
      ghost var q0, db0, cache0 := redis.View(), store.View(), redis.cache;
      RefreshedSelf(db0.balances, cache0);
      for i := 0 to |msgs|
        invariant Q.Accounted(redis.View())
        invariant Q.RetryableExcept(redis.View(), maxRetries, ToDo(msgs[i..]))
        invariant store.View() == ProcessAll(old(store.View()), evs[..i], pricing, status)
        invariant redis.View() == HandleEach(q0, db0, msgs[..i], pricing, status, maxRetries)
        invariant Refreshed(db0.balances, cache0, store.balances, redis.cache)
        invariant forall m | m in redis.pending :: m in old(redis.pending)
      {
        ghost var before := redis.View();
        ghost var balances1, cache1 := store.balances, redis.cache;
        HandleEachSnoc(q0, db0, msgs, i, pricing, status, maxRetries);
        ghost var todo := ToDo(msgs[i..]);
        var ev := redis.stream[msgs[i]];
        assert msgs[i] == msgs[i..][0];
        var ok := HandleMessage(msgs[i], pricing(ev), status(ev));
        Q.HandleClears(before, msgs[i], ok, maxRetries, todo);
        LessToDo(msgs, i);
        RetryableWeaker(redis.View(), maxRetries, todo - {msgs[i]}, ToDo(msgs[i + 1..]));
        HandleKeeps(before, msgs[i], ok, maxRetries);
        RefreshedTwice(db0.balances, cache0, balances1, cache1, store.balances, redis.cache);
      }
      assert evs[..|msgs|] == evs && msgs[..|msgs|] == msgs;
      RetryableAll(redis.View(), maxRetries);
      if NoRepeats(msgs) {
        EachIsHandled(q0, db0, msgs, pricing, status, maxRetries);
      }
      assert msgs[|msgs|..] == [];
    }

    /** Reclaim idle entries and handle them, then read new ones and handle them: between batches no pending
        entry has had max(1, maxRetries) deliveries, so none is ever delivered more often than that. */
    method ProcessBatch(idle: set<nat>, pricing: Q.Event -> Option<int>, status: Q.Event -> Status)
      returns (claimed: seq<nat>, read: seq<nat>)
      requires Q.Accounted(redis.View()) && Q.Retryable(redis.View(), maxRetries)
      modifies store, redis`cache, redis`pending, redis`acked, redis`dead, redis`cursor
      ensures Q.Accounted(redis.View()) && Q.Retryable(redis.View(), maxRetries)
      ensures |claimed| <= 10 && |read| == Min(10, |redis.stream| - old(redis.cursor))
      ensures redis.cursor == old(redis.cursor) + |read|
      ensures InStream(redis.stream, claimed) && InStream(redis.stream, read)
      ensures store.View() == ProcessAll(ProcessAll(old(store.View()), EventsAt(redis.stream, claimed), pricing, status),
                                         EventsAt(redis.stream, read), pricing, status)
      ensures Refreshed(old(store.balances), old(redis.cache), store.balances, redis.cache)
      ensures forall i | 0 <= i < |claimed| ::
                BatchFate(old(redis.pending), redis.View(), claimed[i],
                          Succeeds(old(store.View()), redis.stream, claimed, i, pricing, status), maxRetries)
      ensures var mid := ProcessAll(old(store.View()), EventsAt(redis.stream, claimed), pricing, status);
              var deliveries := WithThisOne(old(redis.pending));
              && (forall i | 0 <= i < |read| ::
                    BatchFate(old(redis.pending), redis.View(), read[i],
                              Succeeds(mid, redis.stream, read, i, pricing, status), maxRetries))
              && redis.dead == old(redis.dead)
                   + UsedUp(deliveries, old(store.View()), redis.stream, claimed, |claimed|, pricing, status, maxRetries)
                   + UsedUp(deliveries, mid, redis.stream, read, |read|, pricing, status, maxRetries)
    {
      hide Refreshed, Succeeds, UsedUp, EachHandled, ProcessAll, BatchFate, Handled, Q.RetryableExcept, HandleEach;
      ghost var q0 := redis.View();
      claimed := redis.AutoClaimMeterEvents(idle, 10);
      assert InStream(redis.stream, claimed) by {
        forall i | 0 <= i < |claimed| ensures claimed[i] < |redis.stream| {
          assert claimed[i] in claimed;
        }
      }
      ghost var q1, db1 := redis.View(), store.View();
      ClaimedRetryable(q0, q1, claimed, maxRetries);
      HandleAll(claimed, pricing, status);
      ghost var balances1, cache1 := store.balances, redis.cache;
      ghost var q2, db2 := redis.View(), store.View();
      read := redis.ReadMeterEvents(10);
      ghost var q3 := redis.View();
      ReadRetryable(q2, q3, read, maxRetries);
      HandleAll(read, pricing, status);
      BatchLaw(q0, q1, q2, q3, redis.View(), db1, db2, claimed, read, pricing, status, maxRetries);
      RefreshedTwice(old(store.balances), old(redis.cache), balances1, cache1, store.balances, redis.cache);
    }
  }

  lemma ClaimedRetryable(q: Q.Stream, r: Q.Stream, claimed: seq<nat>, maxRetries: int)
    requires Q.Retryable(q, maxRetries) && r.pending.Keys == q.pending.Keys
    requires forall m | m in r.pending :: r.pending[m] == q.pending[m] + (if m in claimed then 1 else 0)
    ensures Q.RetryableExcept(r, maxRetries, ToDo(claimed))
  {
  }

  lemma ReadRetryable(q: Q.Stream, r: Q.Stream, read: seq<nat>, maxRetries: int)
    requires Q.Retryable(q, maxRetries) && r.cursor == q.cursor + |read| && forall i | 0 <= i < |read| :: read[i] == q.cursor + i
    requires forall m :: m in r.pending <==> m in q.pending || q.cursor <= m < r.cursor
    requires forall m | m in r.pending :: r.pending[m] == if m in q.pending then q.pending[m] else 1
    ensures Q.RetryableExcept(r, maxRetries, ToDo(read))
  {
    forall m | q.cursor <= m < r.cursor ensures m in ToDo(read) {
      assert read[m - q.cursor] == m;
    }
  }

  /** A batch on the queue: q0 claimed to q1, handled to q2, read to q3, handled to q4. */
  lemma BatchLaw(q0: Q.Stream, q1: Q.Stream, q2: Q.Stream, q3: Q.Stream, q4: Q.Stream, db1: Db, db2: Db,
                 claimed: seq<nat>, read: seq<nat>, pricing: Q.Event -> Option<int>, status: Q.Event -> Status, maxRetries: int)
    requires Q.Accounted(q0) && Q.Accounted(q2)
    requires q0.stream == q1.stream == q2.stream == q3.stream == q4.stream
    requires q1.dead == q0.dead && q3.dead == q2.dead && q1.acked == q0.acked && q3.acked == q2.acked
    requires q0.cursor == q1.cursor == q2.cursor
    requires InStream(q0.stream, claimed) && InStream(q0.stream, read) && NoRepeats(claimed) && NoRepeats(read)
    requires forall m | m in claimed :: m in q0.pending
    requires q1.pending.Keys == q0.pending.Keys
    requires forall m | m in q1.pending :: q1.pending[m] == q0.pending[m] + (if m in claimed then 1 else 0)
    requires EachHandled(q1, q2, db1, claimed, pricing, status, maxRetries)
    requires forall i | 0 <= i < |read| :: read[i] == q2.cursor + i
    requires forall m :: m in q3.pending <==> m in q2.pending || q2.cursor <= m < q2.cursor + |read|
    requires forall m | m in q3.pending :: q3.pending[m] == if m in q2.pending then q2.pending[m] else 1
    requires EachHandled(q3, q4, db2, read, pricing, status, maxRetries)
    ensures forall i | 0 <= i < |claimed| ::
              BatchFate(q0.pending, q4, claimed[i], Succeeds(db1, q0.stream, claimed, i, pricing, status), maxRetries)
    ensures forall i | 0 <= i < |read| ::
              BatchFate(q0.pending, q4, read[i], Succeeds(db2, q0.stream, read, i, pricing, status), maxRetries)
    ensures q4.dead == q0.dead
              + UsedUp(WithThisOne(q0.pending), db1, q0.stream, claimed, |claimed|, pricing, status, maxRetries)
              + UsedUp(WithThisOne(q0.pending), db2, q0.stream, read, |read|, pricing, status, maxRetries)
  {
    hide Succeeds, UsedUp, Q.Handle;
    var deliveries := WithThisOne(q0.pending);
    forall i | 0 <= i < |claimed|
      ensures BatchFate(q0.pending, q4, claimed[i], Succeeds(db1, q0.stream, claimed, i, pricing, status), maxRetries)
      ensures CountIn(q1.pending)(claimed[i]) == deliveries(claimed[i])
    {
      var m := claimed[i];
      assert m in claimed && m in q0.pending;
      assert m < q0.cursor;
      assert m !in read;
      assert Q.Same(q3, q4, m);
      assert Handled(q1, q2, m, Succeeds(db1, q0.stream, claimed, i, pricing, status), maxRetries);
    }
    forall i | 0 <= i < |read|
      ensures BatchFate(q0.pending, q4, read[i], Succeeds(db2, q0.stream, read, i, pricing, status), maxRetries)
      ensures CountIn(q3.pending)(read[i]) == deliveries(read[i])
    {
      var m := read[i];
      assert m >= q0.cursor && m !in q0.pending && m !in q2.pending;
      assert Handled(q3, q4, m, Succeeds(db2, q0.stream, read, i, pricing, status), maxRetries);
    }
    SameUsedUp(CountIn(q1.pending), deliveries, db1, q0.stream, claimed, |claimed|, pricing, status, maxRetries);
    SameUsedUp(CountIn(q3.pending), deliveries, db2, q0.stream, read, |read|, pricing, status, maxRetries);
  }

  lemma RefreshedSelf(balances: map<string, int>, cache: map<string, int>)
    ensures Refreshed(balances, cache, balances, cache)
  {
  }

  lemma RefreshedTwice(b0: map<string, int>, c0: map<string, int>, b1: map<string, int>, c1: map<string, int>,
                       b2: map<string, int>, c2: map<string, int>)
    requires Refreshed(b0, c0, b1, c1) && Refreshed(b1, c1, b2, c2)
    ensures Refreshed(b0, c0, b2, c2)
  {
  }

  lemma HandleKeeps(q: Q.Stream, m: nat, ok: bool, maxRetries: int)
    requires m < |q.stream|
    ensures forall k | k in Q.Handle(q, m, ok, maxRetries).pending :: k in q.pending
  {
  }

  lemma RetryableAll(q: Q.Stream, maxRetries: int)
    requires Q.RetryableExcept(q, maxRetries, ToDo([]))
    ensures Q.Retryable(q, maxRetries)
  {
  }

  lemma LessToDo(msgs: seq<nat>, i: nat)
    requires i < |msgs|
    ensures ToDo(msgs[i..]) - {msgs[i]} <= ToDo(msgs[i + 1..])
  {
    assert msgs[i..] == [msgs[i]] + msgs[i + 1..];
  }

  lemma RetryableWeaker(q: Q.Stream, maxRetries: int, a: set<nat>, b: set<nat>)
    requires a <= b && Q.RetryableExcept(q, maxRetries, a)
    ensures Q.RetryableExcept(q, maxRetries, b)
  {
  }

  // ----- a batch is a run of the protocol -----

  /** An event the gateway emitted for a request that holds, with a price that is not negative. */
  ghost predicate Genuine(requests: map<string, Request>, ev: Q.Event, price: Option<int>) {
    && ev.id in requests && requests[ev.id] == Request(ev.user, ev.clientKey, ev.hold)
    && (price.Some? ==> price.value >= 0)
  }

  /** SettleUsage and CloseSession per event whose settlement commits; a refused one leaves no step. */
  ghost function WorkSteps(s: Core, evs: seq<Q.Event>, pricing: Q.Event -> Option<int>, status: Q.Event -> Status): seq<Step> {
    if evs == [] then []
    else
      var front := WorkSteps(s, evs[..|evs| - 1], pricing, status);
      var ev := evs[|evs| - 1];
      if Processes(RunFrom(s, front).db, ev, pricing(ev)) && pricing(ev).value >= 0
      then front + [SettleUsage(ev.id, pricing(ev).value, status(ev))] + [CloseSession(ev.id)]
      else front
  }

  /** What the worker does with a list of the gateway's events is a run of the protocol, so every theorem
      about runs holds of the database it leaves. */
  lemma {:induction false} ProcessAllIsRun(s: Core, evs: seq<Q.Event>, pricing: Q.Event -> Option<int>, status: Q.Event -> Status)
    requires forall i | 0 <= i < |evs| :: Genuine(s.requests, evs[i], pricing(evs[i]))
    ensures ProcessAll(s.db, evs, pricing, status) == RunFrom(s, WorkSteps(s, evs, pricing, status)).db
    ensures RunFrom(s, WorkSteps(s, evs, pricing, status)).requests == s.requests
  {
    hide Apply, Processes, ProcessOne, Genuine;
    if evs != [] {
      var n := |evs| - 1;
      var front, ev := evs[..n], evs[n];
      assert Genuine(s.requests, evs[n], pricing(evs[n]));
      ProcessAllIsRun(s, front, pricing, status);
      var steps := WorkSteps(s, front, pricing, status);
      OneAttempt(RunFrom(s, steps), ev, pricing(ev), status(ev));
      if Processes(RunFrom(s, steps).db, ev, pricing(ev)) {
        var settle := SettleUsage(ev.id, pricing(ev).value, status(ev));
        RunSnoc(s, steps, settle);
        RunSnoc(s, steps + [settle], CloseSession(ev.id));
      }
    }
  }

  lemma OneAttempt(s: Core, ev: Q.Event, price: Option<int>, status: Status)
    requires Genuine(s.requests, ev, price)
    ensures !Processes(s.db, ev, price) ==> ProcessOne(s.db, ev, price, status) == s.db
    ensures Processes(s.db, ev, price) ==>
              && price.Some? && price.value >= 0
              && var t := Apply(Apply(s, SettleUsage(ev.id, price.value, status)), CloseSession(ev.id));
                 t.db == ProcessOne(s.db, ev, price, status) && t.requests == s.requests
  {
    hide CanSettle, AfterSettle, CaptureRelease;
  }

  // ----- the sweeper -----

  /** One listed id: read its hold, find its user, release it all, drop the session. */
  ghost function SweepOne(db: Db, id: string): Db {
    var hold := if id in db.sessions then db.sessions[id].hold else 0;
    if id in db.logs && CanSettle(db, db.logs[id].user, id, 0, hold, "")
    then DeleteSession(AfterSettle(db, db.logs[id].user, id, 0, hold, Failed, ""), id)
    else db
  }

  ghost function SweepAll(db: Db, ids: seq<string>): Db {
    if ids == [] then db else SweepOne(SweepAll(db, ids[..|ids| - 1]), ids[|ids| - 1])
  }

  /** GetExpiredSessions: at most `limit` ids, all expired, and every expired one if there is room. */
  method ExpiredSessions(store: Store, now: int, limit: nat) returns (ids: seq<string>)
    ensures |ids| <= limit
    ensures Distinct(ids)
    ensures forall id | id in ids :: id in store.sessions && store.sessions[id].expires < now
    ensures |ids| < limit ==> forall id | id in store.sessions && store.sessions[id].expires < now :: id in ids
  {
    ids := [];
    var todo := set id | id in store.sessions && store.sessions[id].expires < now;
    while |ids| < limit && todo != {}
      invariant |ids| <= limit
      invariant forall i, j | 0 <= i < j < |ids| :: ids[i] != ids[j]
      invariant forall id | id in ids :: id in store.sessions && store.sessions[id].expires < now && id !in todo
      invariant forall id | id in todo :: id in store.sessions && store.sessions[id].expires < now
      invariant forall id | id in store.sessions && store.sessions[id].expires < now :: id in ids || id in todo
      decreases |todo|
    {
      var id :| id in todo;
      todo := todo - {id};
      ids := ids + [id];
    }
  }

  /** One tick of runSweeper: every listed session in turn; a failed one is skipped and stays listed.  With room for
      all expired sessions, and a database the protocol can reach, what stays listed is exactly what has
      not expired and what had used its release key. */
  method SweepExpired(store: Store, now: int) returns (ids: seq<string>)
    modifies store
    ensures |ids| <= 100
    ensures forall id | id in ids :: id in old(store.sessions) && old(store.sessions)[id].expires < now
    ensures |ids| < 100 ==> forall id | id in old(store.sessions) && old(store.sessions)[id].expires < now :: id in ids
    ensures Distinct(ids) && store.View() == SweepAll(old(store.View()), ids)
    ensures |ids| < 100 ==>
              forall s: Core | Sound(s) && s.db == old(store.View()) :: StillListed(s, now, store.sessions)
  {
    hide Sound, StillListed, Distinct;
    ids := ExpiredSessions(store, now, 100);
    for i := 0 to |ids|
      invariant store.View() == SweepAll(old(store.View()), ids[..i])
    {
      var id := ids[i];
      assert ids[..i + 1][..i] == ids[..i];
      var hold := if id in store.sessions then store.sessions[id].hold else 0;
      if id in store.logs {
        var txn := store.CaptureAndRelease(store.logs[id].user, id, 0, hold, Failed, "");
        if txn.Ok? {
          store.DeleteMeteringSession(id);
        }
      }
    }
    assert ids[..|ids|] == ids;
    if |ids| < 100 {
      forall s: Core | Sound(s) && s.db == old(store.View()) ensures StillListed(s, now, store.sessions) {
        TickClears(s, ids, now);
      }
    }
  }

  /** The sessions of s that have not expired, or whose release key is used, are the ones in `sessions`. */
  ghost predicate StillListed(s: Core, now: int, sessions: map<string, Session>) {
    forall id | id in s.db.sessions ::
      id in sessions <==> s.db.sessions[id].expires >= now || !KeyFree(s.db.rows, ReleaseKey(id))
  }

  /** A sweeper tick without interference is a run of the protocol: SweepHold and CloseSession per id. */
  ghost function SweepSteps(s: Core, ids: seq<string>): seq<Step> {
    if ids == [] then []
    else
      var front := SweepSteps(s, ids[..|ids| - 1]);
      var mid := RunFrom(s, front);
      var id := ids[|ids| - 1];
      var sweep := SweepHold(id, if id in mid.db.sessions then mid.db.sessions[id].hold else 0);
      // a refused settlement is followed by no delete
      if id in mid.db.logs && CanSettle(mid.db, mid.db.logs[id].user, id, 0, sweep.seen, "")
      then front + [sweep] + [CloseSession(id)]
      else front + [sweep]
  }

  lemma {:induction false} SweepAllIsRun(s: Core, ids: seq<string>)
    requires Sound(s)
    requires forall i | 0 <= i < |ids| :: ids[i] in s.db.sessions
    ensures SweepAll(s.db, ids) == RunFrom(s, SweepSteps(s, ids)).db
    ensures RunFrom(s, SweepSteps(s, ids)).requests == s.requests
  {
    hide Apply, Sound, CanSettle, AfterSettle;
    if ids != [] {
      var n := |ids| - 1;
      var front, id := ids[..n], ids[n];
      SweepAllIsRun(s, front);
      var steps := SweepSteps(s, front);
      var mid := RunFrom(s, steps);
      RunFromKeeps(s, steps);
      var sweep := SweepHold(id, if id in mid.db.sessions then mid.db.sessions[id].hold else 0);
      RunSnoc(s, steps, sweep);
      RunSnoc(s, steps + [sweep], CloseSession(id));
      ListedHasLog(s, id);
      OneSweep(mid, id);
    }
  }

  lemma ListedHasLog(s: Core, id: string)
    requires Sound(s) && id in s.db.sessions
    ensures id in s.requests && id in s.db.logs
  {
  }

  lemma OneSweep(s: Core, id: string)
    requires Sound(s) && id in s.requests
    ensures var sweep := SweepHold(id, if id in s.db.sessions then s.db.sessions[id].hold else 0);
            var t := Apply(s, sweep);
            && t.requests == s.requests && Apply(t, CloseSession(id)).requests == s.requests
            && (id in s.db.logs && CanSettle(s.db, s.db.logs[id].user, id, 0, sweep.seen, "") ==>
                  Apply(t, CloseSession(id)).db == SweepOne(s.db, id))
            && (!(id in s.db.logs && CanSettle(s.db, s.db.logs[id].user, id, 0, sweep.seen, "")) ==>
                  t.db == SweepOne(s.db, id))
  {
    hide Agrees, RowsShaped, HoldsRecorded, CanSettle, AfterSettle;
  }

  // ----- what a sweeper tick achieves -----

  /** A listed session whose release key is unused. */
  ghost predicate Sweepable(s: Core, id: string) {
    id in s.db.sessions && KeyFree(s.db.rows, ReleaseKey(id))
  }

  /** One sweep: its own session is closed and released whole, or nothing happens; other sessions do not notice. */
  lemma SweepOneEffect(s: Core, id: string, x: string)
    requires Sound(s) && id in s.db.sessions
    ensures var t := SweepOne(s.db, id);
            && id in s.requests && s.requests[id].user in s.db.balances && s.db.sessions[id].hold == s.requests[id].hold
            && (if Sweepable(s, id)
                then && t.balances == s.db.balances[s.requests[id].user := s.db.balances[s.requests[id].user] + s.requests[id].hold]
                     && t.sessions == s.db.sessions - {id}
                     && Released(t.rows, x) == Released(s.db.rows, x) + (if x == id then s.requests[id].hold else 0)
                     && (x != id ==> (KeyFree(t.rows, ReleaseKey(x)) <==> KeyFree(s.db.rows, ReleaseKey(x))))
                else t == s.db)
  {
    hide Sound, Total, KeyFree;
    ListedFacts(s, id);
    var user, h := s.requests[id].user, s.requests[id].hold;
    SettleGuard(s.db, user, id, h, 0, "");
    var row := Row(user, Release, h, s.db.balances[user] + h, Some(id), ReleaseKey(id));
    TotalSnoc(s.db.rows, row, OfKind(x, Release));
    KeyFreeSnoc(s.db.rows, row, ReleaseKey(x));
  }

  lemma ListedFacts(s: Core, id: string)
    requires Sound(s) && id in s.db.sessions
    ensures id in s.requests && id in s.db.logs && s.db.logs[id].user == s.requests[id].user
    ensures s.requests[id].hold == s.db.sessions[id].hold > 0
    ensures s.requests[id].user in s.db.balances && s.db.balances[s.requests[id].user] >= 0
  {
  }

  /** What a list of sweeps gives back to one user. */
  ghost function Returned(s: Core, ids: seq<string>, user: string): int {
    if ids == [] then 0
    else
      var id := ids[|ids| - 1];
      Returned(s, ids[..|ids| - 1], user)
      + (if Sweepable(s, id) && id in s.requests && s.requests[id].user == user then s.requests[id].hold else 0)
  }

  /** A tick over distinct listed sessions: exactly those with an unused release key are closed, each with its whole
      hold released; every other session stays listed as it was. */
  lemma {:induction false} SweepTick(s: Core, ids: seq<string>, x: string)
    requires Sound(s) && Distinct(ids) && x in s.db.sessions
    requires forall i | 0 <= i < |ids| :: ids[i] in s.db.sessions
    ensures var t := SweepAll(s.db, ids);
            && x in s.requests
            && (if x in ids && Sweepable(s, x)
                then x !in t.sessions && Released(t.rows, x) == Released(s.db.rows, x) + s.requests[x].hold
                else x in t.sessions && t.sessions[x] == s.db.sessions[x] && Released(t.rows, x) == Released(s.db.rows, x))
            && (x !in ids ==> (KeyFree(t.rows, ReleaseKey(x)) <==> KeyFree(s.db.rows, ReleaseKey(x))))
  {
    hide Sound, SweepOne, Released, KeyFree, SweepSteps, RunFrom;
    ListedFacts(s, x);
    if ids != [] {
      var n := |ids| - 1;
      var front, id := ids[..n], ids[n];
      assert ids == front + [id];
      var mid := RunFrom(s, SweepSteps(s, front));
      SweepAllIsRun(s, front);
      RunFromKeeps(s, SweepSteps(s, front));
      SweepTick(s, front, x);
      SweepTick(s, front, id);
      SweepOneEffect(mid, id, x);
    }
  }

  /** And each user's balance rises by exactly what those sessions held. */
  lemma {:induction false} SweepReturns(s: Core, ids: seq<string>, user: string)
    requires Sound(s) && Distinct(ids) && user in s.db.balances
    requires forall i | 0 <= i < |ids| :: ids[i] in s.db.sessions
    ensures var t := SweepAll(s.db, ids);
            user in t.balances && t.balances[user] == s.db.balances[user] + Returned(s, ids, user)
  {
    hide Sound, SweepOne, KeyFree, SweepSteps, RunFrom;
    if ids != [] {
      var n := |ids| - 1;
      var front, id := ids[..n], ids[n];
      var mid := RunFrom(s, SweepSteps(s, front));
      SweepAllIsRun(s, front);
      RunFromKeeps(s, SweepSteps(s, front));
      SweepReturns(s, front, user);
      SweepTick(s, front, id);
      SweepOneEffect(mid, id, id);
    }
  }

  /** A tick that listed every expired session leaves listed exactly those that have not expired and those whose
      release key was used before. */
  lemma TickClears(s: Core, ids: seq<string>, now: int)
    requires Sound(s) && Distinct(ids)
    requires forall i | 0 <= i < |ids| :: ids[i] in s.db.sessions
    requires forall id | id in s.db.sessions :: id in ids <==> s.db.sessions[id].expires < now
    ensures StillListed(s, now, SweepAll(s.db, ids).sessions)
  {
    hide Sound, SweepAll, KeyFree, Released;
    forall id | id in s.db.sessions
      ensures id in SweepAll(s.db, ids).sessions <==> s.db.sessions[id].expires >= now || !KeyFree(s.db.rows, ReleaseKey(id))
    {
      SweepTick(s, ids, id);
    }
  }

  // ----- reconciliation -----

  /** Balance and ledger sum differ. */
  ghost predicate Drifted(db: Db, u: string) {
    u in db.balances && LedgerSum(db.rows, u) != db.balances[u]
  }

  /** One user's turn, with the balance from the snapshot.  With auto-fix the user ends as atomic reconciliation leaves
      him; without it no balance moves.  A drifted user's balance is cached, unless the fix was refused. */
  method ReconcileUser(store: Store, redis: Client, u: string, cached: int, autoFix: bool)
    requires u in store.balances && store.balances[u] == cached
    modifies store, redis`cache
    ensures store.View() == if autoFix then Reconciled(old(store.View()), u) else old(store.View())
    ensures redis.cache == if Drifted(old(store.View()), u) && (autoFix ==> LedgerSum(old(store.rows), u) >= 0)
                           then old(redis.cache)[u := store.balances[u]] else old(redis.cache)
  {
    hide LedgerSum;
    var ledger := LedgerSum(store.rows, u);
    if ledger != cached {
      if autoFix {
        if ledger >= 0 {
          store.SetUserBalanceFromLedger(u, ledger);
          redis.cache := redis.cache[u := ledger];
        }
      } else {
        redis.cache := redis.cache[u := cached];
      }
    } else {
      assert store.balances[u := ledger] == store.balances;
    }
  }

  ghost predicate SameEntry(cache: map<string, int>, cache': map<string, int>, u: string) {
    (u in cache' <==> u in cache) && (u in cache ==> cache'[u] == cache[u])
  }

  /** A user's balance and cache entry as they were. */
  ghost predicate Waiting(db: Db, cache: map<string, int>, balances: map<string, int>, cache': map<string, int>, u: string) {
    u in db.balances && u in balances && balances[u] == db.balances[u] && SameEntry(cache, cache', u)
  }

  /** A user's balance as atomic reconciliation leaves it, or unmoved without auto-fix; and the balance cached if the
      user had drifted, unless a fix was refused. */
  ghost predicate Turned(db: Db, cache: map<string, int>, balances: map<string, int>, cache': map<string, int>,
                         autoFix: bool, u: string) {
    && u in db.balances && u in balances
    && balances[u] == (if autoFix then Reconciled(db, u).balances[u] else db.balances[u])
    && (if Drifted(db, u) && (autoFix ==> LedgerSum(db.rows, u) >= 0)
        then u in cache' && cache'[u] == balances[u] else SameEntry(cache, cache', u))
  }

  /** One turn moves one user from waiting to turned and no other. */
  lemma OneTurn(db: Db, cache: map<string, int>, now: Db, cache1: map<string, int>, next: Db, cache2: map<string, int>,
                autoFix: bool, u: string)
    requires now.rows == db.rows && Waiting(db, cache, now.balances, cache1, u)
    requires next == if autoFix then Reconciled(now, u) else now
    requires cache2 == if Drifted(now, u) && (autoFix ==> LedgerSum(now.rows, u) >= 0)
                       then cache1[u := next.balances[u]] else cache1
    ensures Turned(db, cache, next.balances, cache2, autoFix, u)
    ensures next == now.(balances := next.balances) && next.balances.Keys == now.balances.Keys
    ensures forall v | v != u && Waiting(db, cache, now.balances, cache1, v) :: Waiting(db, cache, next.balances, cache2, v)
    ensures forall v | v != u && Turned(db, cache, now.balances, cache1, autoFix, v) ::
              Turned(db, cache, next.balances, cache2, autoFix, v)
    ensures forall v | v != u :: SameEntry(cache1, cache2, v)
  {
    hide LedgerSum;
  }

  /** One tick of runReconciliation over a snapshot of the users table, in any order. */
  method ReconcileAll(store: Store, redis: Client, autoFix: bool)
    modifies store, redis`cache
    ensures store.View() == old(store.View()).(balances := store.balances)
    ensures store.balances.Keys == old(store.balances).Keys
    ensures forall u | u in old(store.balances) ::
              Turned(old(store.View()), old(redis.cache), store.balances, redis.cache, autoFix, u)
    ensures forall u | u !in old(store.balances) :: SameEntry(old(redis.cache), redis.cache, u)
    ensures forall u | u in old(store.balances) && autoFix && LedgerSum(store.rows, u) >= 0 ::
              store.balances[u] == LedgerSum(store.rows, u) && !Drifted(store.View(), u)
    ensures !autoFix ==> store.balances == old(store.balances)
  {
    hide LedgerSum, Drifted, Turned, Waiting, SameEntry, Reconciled;
    var snapshot := store.balances;
    var todo := snapshot.Keys;
    ghost var db, cache := store.View(), redis.cache;
    AllWaiting(db, cache);
    while todo != {}
      invariant todo <= snapshot.Keys
      invariant store.View() == db.(balances := store.balances) && store.balances.Keys == snapshot.Keys
      invariant forall u | u in todo :: Waiting(db, cache, store.balances, redis.cache, u)
      invariant forall u | u in snapshot && u !in todo :: Turned(db, cache, store.balances, redis.cache, autoFix, u)
      invariant forall u | u !in snapshot :: SameEntry(cache, redis.cache, u)
      decreases |todo|
    {
      var u :| u in todo;
      todo := todo - {u};
      ghost var now, cache1 := store.View(), redis.cache;
      StillHis(db, cache, store.balances, redis.cache, u);
      ReconcileUser(store, redis, u, snapshot[u], autoFix);
      OneTurn(db, cache, now, cache1, store.View(), redis.cache, autoFix, u);
      OutsideStays(cache, cache1, redis.cache);
    }
    AllTurned(db, cache, store.View(), redis.cache, autoFix);
  }

  lemma AllWaiting(db: Db, cache: map<string, int>)
    ensures forall u | u in db.balances :: Waiting(db, cache, db.balances, cache, u)
    ensures forall u :: SameEntry(cache, cache, u)
  {
  }

  lemma StillHis(db: Db, cache: map<string, int>, balances: map<string, int>, cache': map<string, int>, u: string)
    requires Waiting(db, cache, balances, cache', u)
    ensures u in balances && u in db.balances && balances[u] == db.balances[u]
  {
  }

  lemma OutsideStays(cache: map<string, int>, cache1: map<string, int>, cache2: map<string, int>)
    ensures forall u | SameEntry(cache, cache1, u) && SameEntry(cache1, cache2, u) :: SameEntry(cache, cache2, u)
  {
  }

  lemma AllTurned(db: Db, cache: map<string, int>, next: Db, cache': map<string, int>, autoFix: bool)
    requires next.rows == db.rows && next.balances.Keys == db.balances.Keys
    requires forall u | u in db.balances :: Turned(db, cache, next.balances, cache', autoFix, u)
    ensures forall u | u in db.balances && autoFix && LedgerSum(next.rows, u) >= 0 ::
              next.balances[u] == LedgerSum(next.rows, u) && !Drifted(next, u)
    ensures !autoFix ==> next.balances == db.balances
  {
    hide LedgerSum, SameEntry;
    forall u | u in db.balances && autoFix && LedgerSum(next.rows, u) >= 0
      ensures next.balances[u] == LedgerSum(next.rows, u) && !Drifted(next, u)
    {
      assert Turned(db, cache, next.balances, cache', autoFix, u);
    }
    if !autoFix {
      forall u | u in db.balances ensures next.balances[u] == db.balances[u] {
        assert Turned(db, cache, next.balances, cache', autoFix, u);
      }
    }
  }
}
