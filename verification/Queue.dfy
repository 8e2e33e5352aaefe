/**
 The Redis stream of metering events with its consumer group, pending entries and dead letters.

 A message is its position in `stream`.  `cursor` is the group's last delivered position,
 `pending` the entries delivered and not acknowledged, with their delivery counts, and `acked`
 remembers why an entry left: its settlement committed, it was copied to the dead letters, or that
 copy failed unnoticed.
 */
module Queue {
  import opened Base

  datatype Event = Event(id: string, user: string, clientKey: string, hold: int)

  datatype Fate = Settled | Dead | Lost

  datatype Stream = Stream(stream: seq<Event>, cursor: nat, pending: map<nat, int>, acked: map<nat, Fate>, dead: seq<Event>)

  const EMPTY := Stream([], 0, map[], map[], [])

  /** XADD meter:stream, also used to replay a dead letter, which stays where it is. */
  function Emit(q: Stream, ev: Event): Stream {
    q.(stream := q.stream + [ev])
  }

  /** XREADGROUP ... COUNT 1: the next message, delivered for the first time. */
  function Deliver(q: Stream): Stream {
    if q.cursor < |q.stream| then q.(cursor := q.cursor + 1, pending := q.pending[q.cursor := 1]) else q
  }

  /** XAUTOCLAIM of one pending entry. */
  function Reclaim(q: Stream, m: nat): Stream {
    if m in q.pending then q.(pending := q.pending[m := q.pending[m] + 1]) else q
  }

  /** XPENDING of one entry; an entry that is gone reads as one delivery. */
  function Deliveries(q: Stream, m: nat): int {
    if m in q.pending then q.pending[m] else 1
  }

  /** XACK removes a pending entry; acknowledging twice does nothing. */
  function Ack(q: Stream, m: nat, fate: Fate): Stream {
    if m in q.pending then q.(pending := q.pending - {m}, acked := q.acked[m := fate]) else q
  }

  /** XADD meter:dlq */
  function Bury(q: Stream, ev: Event): Stream {
    q.(dead := q.dead + [ev])
  }

  /** Every emitted message is unread, pending or acknowledged, and never two of these. */
  ghost predicate Accounted(q: Stream) {
    && q.cursor <= |q.stream|
    && (forall m: nat :: m < q.cursor <==> m in q.pending || m in q.acked)
    && (forall m | m in q.pending :: m !in q.acked && q.pending[m] >= 1)
  }

  lemma OpsKeepAccount(q: Stream, ev: Event, m: nat, fate: Fate)
    requires Accounted(q)
    ensures Accounted(Emit(q, ev)) && Accounted(Bury(q, ev))
    ensures Accounted(Deliver(q)) && Accounted(Reclaim(q, m)) && Accounted(Ack(q, m, fate))
  {
  }

  // ----- handleMessage and processBatch on the queue -----

  /** handleMessage: acknowledge a processed message; bury a failed one once its deliveries reach the limit. */
  function Handle(q: Stream, m: nat, ok: bool, maxRetries: int): Stream
    requires m < |q.stream|
  {
    if ok then Ack(q, m, Settled)
    else if Deliveries(q, m) >= maxRetries then Ack(Bury(q, q.stream[m]), m, Dead)
    else q
  }

  /** How often the message was delivered, as XPENDING reports it. */
  function Count(q: Stream, m: nat): int {
    if m in q.pending then q.pending[m] else 1
  }

  /** Message m is where it was. */
  ghost predicate Same(q: Stream, r: Stream, m: nat) {
    && (m in r.pending <==> m in q.pending) && (m in q.pending ==> r.pending[m] == q.pending[m])
    && (m in r.acked <==> m in q.acked) && (m in q.acked ==> r.acked[m] == q.acked[m])
  }

  /** Message m has left the pending list, with this fate if it was there. */
  ghost predicate AckedFor(q: Stream, r: Stream, m: nat, fate: Fate) {
    m !in r.pending && if m in q.pending then m in r.acked && r.acked[m] == fate else Same(q, r, m)
  }

  /** A processed message is acknowledged as settled at once and no dead letter written; a failed one below the limit
      changes nothing; a failed one at the limit is acknowledged as dead with one more dead letter, its own. */
  lemma HandleLaw(q: Stream, m: nat, ok: bool, maxRetries: int)
    requires m < |q.stream|
    ensures var r := Handle(q, m, ok, maxRetries);
            && r.stream == q.stream && r.cursor == q.cursor && (forall k: nat | k != m :: Same(q, r, k))
            && (ok ==> AckedFor(q, r, m, Settled) && r.dead == q.dead)
            && (!ok && Count(q, m) < maxRetries ==> r == q)
            && (!ok && Count(q, m) >= maxRetries ==> AckedFor(q, r, m, Dead) && r.dead == q.dead + [q.stream[m]])
  {
  }

  /** Between batches no pending entry has used up its deliveries. */
  ghost predicate Retryable(q: Stream, maxRetries: int) {
    forall m | m in q.pending :: q.pending[m] < Max(1, maxRetries)
  }

  /** Within a batch the entries in `todo` have been delivered and not yet handled. */
  ghost predicate RetryableExcept(q: Stream, maxRetries: int, todo: set<nat>) {
    forall m | m in q.pending :: q.pending[m] <= Max(1, maxRetries) && (m in todo || q.pending[m] < Max(1, maxRetries))
  }

  lemma HandleClears(q: Stream, m: nat, ok: bool, maxRetries: int, todo: set<nat>)
    requires Accounted(q) && m < |q.stream| && m in todo && RetryableExcept(q, maxRetries, todo)
    ensures Accounted(Handle(q, m, ok, maxRetries))
    ensures RetryableExcept(Handle(q, m, ok, maxRetries), maxRetries, todo - {m})
  {
    var q1 := if Deliveries(q, m) >= maxRetries then Bury(q, q.stream[m]) else q;
    OpsKeepAccount(q, q.stream[m], m, Settled);
    OpsKeepAccount(q1, q.stream[m], m, Dead);
  }

  // ----- the retry law for one failing message -----

  /** `n` completed deliveries of message m, all of which fail: the first read, then reclaims. */
  function FailRounds(q: Stream, m: nat, maxRetries: int, n: nat): (r: Stream)
    requires m < |q.stream|
    ensures r.stream == q.stream
  {
    if n == 0 then q
    else
      var before := FailRounds(q, m, maxRetries, n - 1);
      var delivered := if n == 1 then before else Reclaim(before, m);
      if m in delivered.pending then Handle(delivered, m, false, maxRetries) else delivered
  }

  /** A permanently failing message is pending after n deliveries exactly while n < max(1, maxRetries), with
      its count equal to n; then it is gone, acknowledged as dead, with one copy among the dead letters. */
  lemma {:induction false} FailingMessageLeaves(q: Stream, m: nat, maxRetries: int, n: nat)
    requires Accounted(q) && m in q.pending && m < |q.stream| && q.pending[m] == 1 && n >= 1
    ensures var r := FailRounds(q, m, maxRetries, n);
            if n < Max(1, maxRetries)
            then m in r.pending && r.pending[m] == n && r.dead == q.dead
            else m !in r.pending && m in r.acked && r.acked[m] == Dead && r.dead == q.dead + [q.stream[m]]
  {
    if n > 1 {
      FailingMessageLeaves(q, m, maxRetries, n - 1);
    } else {
      assert FailRounds(q, m, maxRetries, 0) == q;
    }
  }
}
