/**
 What the actors achieve when nothing interferes and nothing is lost: a request from its arrival to
 its stored answer, an event from its delivery to its acknowledgement.
 */
module Progress {
  import opened Base
  import opened Keys
  import opened Ledger
  import opened Billing
  import opened Settlement
  import opened System
  import opened SerialCache
  import Q = Queue

  // ----- a request -----

  /** The call in another phase, everything else as it was. */
  ghost function WithPhase(b: Sys, id: string, phase: Phase): Sys
    requires id in b.calls
  {
    b.(calls := b.calls[id := b.calls[id].(phase := phase)])
  }

  /** Arrival, an idempotency look-up that finds nothing, and the balance check: the cached balance if there is one,
      else the PostgreSQL balance, which is then cached. */
  ghost function Admit(b: Sys, id: string, user: string, clientKey: string, path: string, hold: int, maxRetries: int): Sys {
    var b1 := Do(b, Gateway(id, Arrive(user, clientKey, path, hold)), maxRetries);
    var b2 := Do(b1, Gateway(id, Lookup(false)), maxRetries);
    var b3 := Do(b2, Gateway(id, ReadCache), maxRetries);
    var b4 := Do(b3, Gateway(id, Fetch), maxRetries);
    Do(b4, Gateway(id, Fill(false)), maxRetries)
  }

  lemma ArriveStep(b: Sys, id: string, user: string, clientKey: string, path: string, hold: int, maxRetries: int)
    requires id !in b.calls && hold > 0
    ensures Do(b, Gateway(id, Arrive(user, clientKey, path, hold)), maxRetries)
         == b.(calls := b.calls[id := Call(user, clientKey, path, hold, false, Arrived)])
  {
    hide BeforeHold, SinceHold, ReserveNow;
  }

  lemma LookupMiss(b: Sys, id: string, maxRetries: int)
    requires id in b.calls && b.calls[id].phase.Arrived?
    requires var c := b.calls[id];
             var key := CacheKey(c.user, c.clientKey, c.path);
             c.clientKey == "" || key !in b.replies || b.now - b.replies[key].at >= 86400
    ensures Do(b, Gateway(id, Lookup(false)), maxRetries) == WithPhase(b, id, Admitted)
  {
    hide SinceHold, ReserveNow, CacheKey;
  }

  lemma ReadCacheStep(b: Sys, id: string, maxRetries: int)
    requires id in b.calls && b.calls[id].phase.Admitted?
    ensures var user := b.calls[id].user;
            Do(b, Gateway(id, ReadCache), maxRetries) == WithPhase(b, id, if user in b.cache then Seen(b.cache[user]) else Missed)
  {
    hide SinceHold, ReserveNow, CacheKey;
  }

  lemma FetchStep(b: Sys, id: string, maxRetries: int)
    requires id in b.calls && (b.calls[id].phase.Missed? || b.calls[id].phase.Seen?) && b.calls[id].user in b.db.balances
    ensures Do(b, Gateway(id, Fetch), maxRetries)
         == if b.calls[id].phase.Missed? then WithPhase(b, id, Fetched(b.db.balances[b.calls[id].user])) else b
  {
    hide SinceHold, ReserveNow, CacheKey;
  }

  lemma FillStep(b: Sys, id: string, maxRetries: int)
    requires id in b.calls && (b.calls[id].phase.Fetched? || b.calls[id].phase.Seen?)
    ensures Do(b, Gateway(id, Fill(false)), maxRetries)
         == if b.calls[id].phase.Fetched?
            then WithPhase(b, id, Seen(b.calls[id].phase.balance)).(cache := b.cache[b.calls[id].user := b.calls[id].phase.balance])
            else b
  {
    hide SinceHold, ReserveNow, CacheKey;
  }

  lemma BalanceSteps(b: Sys, id: string, maxRetries: int)
    requires id in b.calls && b.calls[id].phase.Admitted? && b.calls[id].user in b.db.balances
    ensures var user := b.calls[id].user;
            var b3 := Do(b, Gateway(id, ReadCache), maxRetries);
            var b4 := Do(b3, Gateway(id, Fetch), maxRetries);
            Do(b4, Gateway(id, Fill(false)), maxRetries)
            == if user in b.cache then WithPhase(b, id, Seen(b.cache[user]))
               else WithPhase(b, id, Seen(b.db.balances[user])).(cache := b.cache[user := b.db.balances[user]])
  {
    hide Do;
    ReadCacheStep(b, id, maxRetries);
    var b3 := Do(b, Gateway(id, ReadCache), maxRetries);
    FetchStep(b3, id, maxRetries);
    FillStep(Do(b3, Gateway(id, Fetch), maxRetries), id, maxRetries);
  }

  /** Hold, cache write, usage log, session, answer with its event, and the end of the call. */
  ghost function Complete(b: Sys, id: string, expires: int, resp: Response, maxRetries: int): Sys {
    var b1 := Do(b, Gateway(id, Reserve), maxRetries);
    var b2 := Do(b1, Gateway(id, Publish(false)), maxRetries);
    var b3 := Do(b2, Gateway(id, Note), maxRetries);
    var b4 := Do(b3, Gateway(id, Open(expires)), maxRetries);
    var b5 := Do(b4, Gateway(id, Answer(resp, false)), maxRetries);
    Do(b5, Gateway(id, Remember(false)), maxRetries)
  }

  /** The balance seen and the PostgreSQL balance both cover the hold, and no row has the hold's key. */
  ghost predicate Covered(b: Sys, id: string)
    requires id in b.calls && b.calls[id].phase.Seen?
  {
    var c := b.calls[id];
    && c.hold <= c.phase.balance
    && c.user in b.db.balances && c.hold <= b.db.balances[c.user]
    && forall r | r in b.db.rows :: r.key != HoldKey(if c.clientKey == "" then id else c.clientKey)
  }

  lemma ReserveStep(b: Sys, id: string, maxRetries: int)
    requires id in b.calls && b.calls[id].phase.Seen?
    ensures var c := b.calls[id];
            var left := if c.user in b.db.balances then b.db.balances[c.user] - c.hold else 0;
            var key := HoldKey(if c.clientKey == "" then id else c.clientKey);
            Do(b, Gateway(id, Reserve), maxRetries)
            == if Covered(b, id)
               then b.(db := b.db.(balances := b.db.balances[c.user := left],
                                   rows := b.db.rows + [Row(c.user, Hold, -c.hold, left, Some(id), key)]),
                       calls := b.calls[id := c.(held := true, phase := HoldPlaced(left))])
               else WithPhase(b, id, Closed)
  {
    hide BeforeHold, SinceHold, AfterHold, CanHold;
    var c := b.calls[id];
    HoldLaw(b.db, c.user, c.hold, id, HoldKey(KeyRef(id, c.clientKey)));
    if Covered(b, id) {
      assert CanHold(b.db, c.user, c.hold, HoldKey(KeyRef(id, c.clientKey)));
    }
  }

  lemma PublishStep(b: Sys, id: string, maxRetries: int)
    requires id in b.calls && b.calls[id].phase.HoldPlaced?
    ensures Do(b, Gateway(id, Publish(false)), maxRetries)
         == WithPhase(b, id, Published).(cache := b.cache[b.calls[id].user := b.calls[id].phase.left])
  {
    hide BeforeHold, ReserveNow, CacheKey, Q.Emit, EventOf, InsertLog, InsertSession;
  }

  lemma NoteStep(b: Sys, id: string, maxRetries: int)
    requires id in b.calls && b.calls[id].phase.Published? && id !in b.db.logs
    ensures var c := b.calls[id];
            Do(b, Gateway(id, Note), maxRetries)
            == WithPhase(b, id, Logged).(db := b.db.(logs := b.db.logs[id := UsageLog(c.user, Pending, c.hold, 0, None, None)]))
  {
    hide BeforeHold, ReserveNow, CacheKey, Q.Emit, EventOf, InsertSession;
  }

  lemma OpenStep(b: Sys, id: string, expires: int, maxRetries: int)
    requires id in b.calls && b.calls[id].phase.Logged? && id !in b.db.sessions && b.calls[id].user in b.db.balances
    ensures var c := b.calls[id];
            Do(b, Gateway(id, Open(expires)), maxRetries)
            == WithPhase(b, id, Forwarded).(db := b.db.(sessions := b.db.sessions[id := Session(c.user, c.hold, expires)]))
  {
    hide BeforeHold, ReserveNow, CacheKey, Q.Emit, EventOf, InsertLog;
  }

  lemma AnswerStep(b: Sys, id: string, resp: Response, maxRetries: int)
    requires id in b.calls && b.calls[id].phase.Forwarded?
    ensures var c := b.calls[id];
            Do(b, Gateway(id, Answer(resp, false)), maxRetries)
            == WithPhase(b, id, Answered(resp)).(
                 queue := b.queue.(stream := b.queue.stream + [Q.Event(id, c.user, c.clientKey, c.hold)]))
  {
    hide BeforeHold, ReserveNow, CacheKey, InsertLog, InsertSession;
  }

  lemma RememberStep(b: Sys, id: string, maxRetries: int)
    requires id in b.calls && b.calls[id].phase.Answered?
    ensures var c := b.calls[id];
            var resp := c.phase.resp;
            Do(b, Gateway(id, Remember(false)), maxRetries)
            == WithPhase(b, id, Closed).(
                 replies := if c.clientKey != "" && 200 <= resp.status < 300
                            then b.replies[CacheKey(c.user, c.clientKey, c.path) := Entry(resp, b.now, id)] else b.replies)
  {
    hide BeforeHold, ReserveNow, CacheKey, InsertLog, InsertSession, Q.Emit, EventOf;
  }

  /** Nothing but the arrived call, with the balance seen, and perhaps a freshly cached balance. */
  lemma Admitting(b: Sys, id: string, user: string, clientKey: string, path: string, hold: int, maxRetries: int)
    requires id !in b.calls && hold > 0 && user in b.db.balances
    requires var key := CacheKey(user, clientKey, path);
             clientKey == "" || key !in b.replies || b.now - b.replies[key].at >= 86400
    ensures var seen := if user in b.cache then b.cache[user] else b.db.balances[user];
            Admit(b, id, user, clientKey, path, hold, maxRetries)
            == b.(calls := b.calls[id := Call(user, clientKey, path, hold, false, Seen(seen))], cache := b.cache[user := seen])
  {
    hide Do, CacheKey;
    ArriveStep(b, id, user, clientKey, path, hold, maxRetries);
    var b1 := b.(calls := b.calls[id := Call(user, clientKey, path, hold, false, Arrived)]);
    LookupMiss(b1, id, maxRetries);
    var b2 := WithPhase(b1, id, Admitted);
    BalanceSteps(b2, id, maxRetries);
    var seen := if user in b.cache then b.cache[user] else b.db.balances[user];
    var done := Call(user, clientKey, path, hold, false, Seen(seen));
    assert b1.calls[id := Call(user, clientKey, path, hold, false, Admitted)][id := done] == b.calls[id := done];
    assert user in b.cache ==> b.cache[user := b.cache[user]] == b.cache;
  }

  /** A call that saw a balance ends in one of two ways.  If that balance and the PostgreSQL balance cover its hold
      and its key is new: the hold is debited with its row, the balance left cached, a pending log and a session
      with the given expiry written, the event emitted, and a 2xx answer stored if there is a client key.
      Otherwise the call is closed and nothing else moved. */
  lemma Completing(b: Sys, id: string, expires: int, resp: Response, maxRetries: int)
    requires id in b.calls && b.calls[id].phase.Seen? && id !in b.db.logs && id !in b.db.sessions
    ensures var call := b.calls[id];
            var c := Complete(b, id, expires, resp, maxRetries);
            if Covered(b, id) then
              var left := b.db.balances[call.user] - call.hold;
              var key := HoldKey(if call.clientKey == "" then id else call.clientKey);
              && c.db == Db(b.db.balances[call.user := left],
                            b.db.rows + [Row(call.user, Hold, -call.hold, left, Some(id), key)],
                            b.db.logs[id := UsageLog(call.user, Pending, call.hold, 0, None, None)],
                            b.db.sessions[id := Session(call.user, call.hold, expires)])
              && c.cache == b.cache[call.user := left]
              && c.queue == b.queue.(stream := b.queue.stream + [Q.Event(id, call.user, call.clientKey, call.hold)])
              && c.replies == (if call.clientKey != "" && 200 <= resp.status < 300
                               then b.replies[CacheKey(call.user, call.clientKey, call.path) := Entry(resp, b.now, id)]
                               else b.replies)
              && c.calls == b.calls[id := call.(held := true, phase := Closed)]
            else
              c == WithPhase(b, id, Closed)
  {
    hide Do, CacheKey, Covered;
    ReserveStep(b, id, maxRetries);
    var b1 := Do(b, Gateway(id, Reserve), maxRetries);
    if Covered(b, id) {
      CoveredUser(b, id);
      Booking(b1, id, expires, maxRetries);
      var b2 := Do(b1, Gateway(id, Publish(false)), maxRetries);
      var b4 := Do(Do(b2, Gateway(id, Note), maxRetries), Gateway(id, Open(expires)), maxRetries);
      Finishing(b4, id, resp, maxRetries);
    } else {
      ClosedSteps(b1, id, expires, resp, maxRetries);
    }
  }

  /** From the hold to the session. */
  lemma Booking(b: Sys, id: string, expires: int, maxRetries: int)
    requires id in b.calls && b.calls[id].phase.HoldPlaced? && id !in b.db.logs && id !in b.db.sessions
    requires b.calls[id].user in b.db.balances
    ensures var call := b.calls[id];
            var b2 := Do(b, Gateway(id, Publish(false)), maxRetries);
            Do(Do(b2, Gateway(id, Note), maxRetries), Gateway(id, Open(expires)), maxRetries)
            == b.(db := Db(b.db.balances, b.db.rows, b.db.logs[id := UsageLog(call.user, Pending, call.hold, 0, None, None)],
                           b.db.sessions[id := Session(call.user, call.hold, expires)]),
                  cache := b.cache[call.user := call.phase.left], calls := b.calls[id := call.(phase := Forwarded)])
  {
    hide Do;
    PublishStep(b, id, maxRetries);
    var b2 := Do(b, Gateway(id, Publish(false)), maxRetries);
    NoteStep(b2, id, maxRetries);
    OpenStep(Do(b2, Gateway(id, Note), maxRetries), id, expires, maxRetries);
  }

  /** From the answer to the end of the call. */
  lemma Finishing(b: Sys, id: string, resp: Response, maxRetries: int)
    requires id in b.calls && b.calls[id].phase.Forwarded?
    ensures var call := b.calls[id];
            Do(Do(b, Gateway(id, Answer(resp, false)), maxRetries), Gateway(id, Remember(false)), maxRetries)
            == b.(queue := b.queue.(stream := b.queue.stream + [Q.Event(id, call.user, call.clientKey, call.hold)]),
                  replies := if call.clientKey != "" && 200 <= resp.status < 300
                             then b.replies[CacheKey(call.user, call.clientKey, call.path) := Entry(resp, b.now, id)] else b.replies,
                  calls := b.calls[id := call.(phase := Closed)])
  {
    hide Do, CacheKey;
    AnswerStep(b, id, resp, maxRetries);
    RememberStep(Do(b, Gateway(id, Answer(resp, false)), maxRetries), id, maxRetries);
  }

  lemma CoveredUser(b: Sys, id: string)
    requires id in b.calls && b.calls[id].phase.Seen? && Covered(b, id)
    ensures b.calls[id].user in b.db.balances
  {
  }

  lemma ClosedSteps(b: Sys, id: string, expires: int, resp: Response, maxRetries: int)
    requires id in b.calls && b.calls[id].phase.Closed?
    ensures Do(b, Gateway(id, Publish(false)), maxRetries) == b
    ensures Do(b, Gateway(id, Note), maxRetries) == Do(b, Gateway(id, Open(expires)), maxRetries) == b
    ensures Do(b, Gateway(id, Answer(resp, false)), maxRetries) == Do(b, Gateway(id, Remember(false)), maxRetries) == b
  {
    hide BeforeHold, ReserveNow, CacheKey, InsertLog, InsertSession, Q.Emit, EventOf;
  }

  // ----- an event -----

  /** The delivery in another phase, everything else as it was. */
  ghost function WithJob(b: Sys, j: nat, phase: JobPhase): Sys
    requires j in b.jobs
  {
    b.(jobs := b.jobs[j := b.jobs[j].(phase := phase)])
  }

  /** A first delivery takes the next unread message, with one delivery; a claim takes a pending one, with one more. */
  lemma DeliverySteps(b: Sys, j: nat, m: nat, maxRetries: int)
    requires j !in b.jobs
    ensures b.queue.cursor < |b.queue.stream| ==>
              var k := b.queue.cursor;
              Do(b, Work(j, Take), maxRetries)
              == b.(queue := b.queue.(cursor := k + 1, pending := b.queue.pending[k := 1]), jobs := b.jobs[j := Job(k, Working)])
    ensures m in b.queue.pending ==>
              Do(b, Work(j, Claim(m)), maxRetries)
              == b.(queue := b.queue.(pending := b.queue.pending[m := b.queue.pending[m] + 1]), jobs := b.jobs[j := Job(m, Working)])
  {
    hide AttemptNow, Q.Ack, Q.Bury, Q.Deliveries;
  }

  ghost predicate At(b: Sys, j: nat, phase: JobPhase) {
    j in b.jobs && b.jobs[j].phase == phase && b.jobs[j].msg < |b.queue.stream|
  }

  lemma DeleteStep(b: Sys, j: nat, maxRetries: int)
    requires At(b, j, Committed)
    ensures Do(b, Work(j, Delete(false)), maxRetries)
         == WithJob(b, j, Deleted).(db := b.db.(sessions := b.db.sessions - {b.queue.stream[b.jobs[j].msg].id}))
  {
    hide AttemptNow, Q.Ack, Q.Bury, Q.Deliver, Q.Reclaim, Q.Deliveries;
  }

  lemma ReadStep(b: Sys, j: nat, maxRetries: int)
    requires At(b, j, Deleted) && b.queue.stream[b.jobs[j].msg].user in b.db.balances
    ensures Do(b, Work(j, ReadUser), maxRetries) == WithJob(b, j, Read(b.db.balances[b.queue.stream[b.jobs[j].msg].user]))
  {
    hide AttemptNow, DeleteSession, Q.Ack, Q.Bury, Q.Deliver, Q.Reclaim, Q.Deliveries;
  }

  lemma WriteStep(b: Sys, j: nat, balance: int, maxRetries: int)
    requires At(b, j, Read(balance))
    ensures Do(b, Work(j, WriteCache(false)), maxRetries)
         == WithJob(b, j, Written).(cache := b.cache[b.queue.stream[b.jobs[j].msg].user := balance])
  {
    hide AttemptNow, DeleteSession, Q.Ack, Q.Bury, Q.Deliver, Q.Reclaim, Q.Deliveries;
  }

  lemma AckStep(b: Sys, j: nat, maxRetries: int)
    requires At(b, j, Written) && b.jobs[j].msg in b.queue.pending
    ensures var m := b.jobs[j].msg;
            Do(b, Work(j, Acknowledge(false)), maxRetries)
            == WithJob(b, j, Ended).(queue := b.queue.(pending := b.queue.pending - {m}, acked := b.queue.acked[m := Q.Settled]))
  {
    hide AttemptNow, DeleteSession, Q.Bury, Q.Deliver, Q.Reclaim, Q.Deliveries;
  }

  /** The worker's round on a priced event: settlement, session delete, balance read and cached, acknowledgement. */
  ghost function Round(b: Sys, j: nat, price: nat, status: Status, maxRetries: int): Sys {
    var b1 := Do(b, Work(j, Attempt(Some(price), status)), maxRetries);
    var b2 := Do(b1, Work(j, Delete(false)), maxRetries);
    var b3 := Do(b2, Work(j, ReadUser), maxRetries);
    var b4 := Do(b3, Work(j, WriteCache(false)), maxRetries);
    Do(b4, Work(j, Acknowledge(false)), maxRetries)
  }

  /** The database after a committed attempt: one balance moved, rows appended, the log completed. */
  lemma AttemptStep(b: Sys, j: nat, price: nat, status: Status, maxRetries: int)
    requires Good(b) && At(b, j, Working)
    ensures var ev := b.queue.stream[b.jobs[j].msg];
            var (capture, release) := CaptureRelease(ev.hold, price);
            var c := Do(b, Work(j, Attempt(Some(price), status)), maxRetries);
            if Commits(Abs(b), ev.id, price) then
              && ev.user in b.db.balances && ev.user in c.db.balances && At(c, j, Committed)
              && c.db == AfterSettle(b.db, ev.user, ev.id, capture, release, status, ev.clientKey)
              && c == WithJob(b, j, Committed).(db := c.db, settled := b.settled + {ev.id})
              && c.db.balances == b.db.balances[ev.user := b.db.balances[ev.user] - capture + release]
              && c.db.sessions == b.db.sessions
            else c == WithJob(b, j, Failing)
  {
    hide Sound, Wired, CanSettle, AfterSettle, CaptureRelease, DeleteSession, Q.Ack, Q.Bury, Q.Deliver, Q.Reclaim, Q.Deliveries;
    var ev := b.queue.stream[b.jobs[j].msg];
    var (capture, release) := CaptureRelease(ev.hold, price);
    HoldOfEvent(b, j);
    EventRequest(b, j);
    if CanSettle(b.db, ev.user, ev.id, capture, release, ev.clientKey) {
      CanSettleUser(b.db, ev.user, ev.id, capture, release, ev.clientKey);
      SettleMoves(b.db, ev.user, ev.id, capture, release, status, ev.clientKey);
      SettleFrame(b.db, ev.user, ev.id, capture, release, status, ev.clientKey);
    }
  }

  lemma EventRequest(b: Sys, j: nat)
    requires Wired(b) && j in b.jobs && b.jobs[j].msg < |b.queue.stream|
    ensures var ev := b.queue.stream[b.jobs[j].msg];
            ev.id in Abs(b).requests && Abs(b).requests[ev.id] == Request(ev.user, ev.clientKey, ev.hold)
  {
    hide CallsOk, JobsOk, SweepsOk, FatesOk, RepliesOk, Q.Accounted;
    assert EventOk(b, b.queue.stream[b.jobs[j].msg]);
  }

  /** A round whose settlement commits: the balance moved by release - capture and cached, the session gone, the message
      acknowledged as settled and no longer pending, no dead letter.  One that does not commit changes nothing. */
  lemma Rounds(b: Sys, j: nat, price: nat, status: Status, maxRetries: int)
    requires Good(b) && At(b, j, Working) && b.jobs[j].msg in b.queue.pending
    ensures var m := b.jobs[j].msg;
            var ev := b.queue.stream[m];
            var (capture, release) := CaptureRelease(ev.hold, price);
            var c := Round(b, j, price, status, maxRetries);
            if Commits(Abs(b), ev.id, price) then
              && ev.user in b.db.balances
              && c.db.balances == b.db.balances[ev.user := b.db.balances[ev.user] - capture + release]
              && c.db.sessions == b.db.sessions - {ev.id} && c.settled == b.settled + {ev.id}
              && c.db.rows == AfterSettle(b.db, ev.user, ev.id, capture, release, status, ev.clientKey).rows
              && c.cache == b.cache[ev.user := c.db.balances[ev.user]]
              && m !in c.queue.pending && m in c.queue.acked && c.queue.acked[m] == Q.Settled && c.queue.dead == b.queue.dead
            else c == WithJob(b, j, Failing)
  {
    hide Do, Good, Commits, CaptureRelease, AfterSettle;
    var ev := b.queue.stream[b.jobs[j].msg];
    AttemptStep(b, j, price, status, maxRetries);
    var b1 := Do(b, Work(j, Attempt(Some(price), status)), maxRetries);
    if Commits(Abs(b), ev.id, price) {
      Wrapping(b1, j, maxRetries);
    } else {
      FailingSteps(b1, j, maxRetries);
    }
  }

  /** From a committed settlement to the acknowledgement. */
  lemma Wrapping(b: Sys, j: nat, maxRetries: int)
    requires At(b, j, Committed) && b.jobs[j].msg in b.queue.pending && b.queue.stream[b.jobs[j].msg].user in b.db.balances
    ensures var m := b.jobs[j].msg;
            var ev := b.queue.stream[m];
            var b2 := Do(b, Work(j, Delete(false)), maxRetries);
            var b4 := Do(Do(b2, Work(j, ReadUser), maxRetries), Work(j, WriteCache(false)), maxRetries);
            Do(b4, Work(j, Acknowledge(false)), maxRetries)
            == b.(db := b.db.(sessions := b.db.sessions - {ev.id}), cache := b.cache[ev.user := b.db.balances[ev.user]],
                  queue := b.queue.(pending := b.queue.pending - {m}, acked := b.queue.acked[m := Q.Settled]),
                  jobs := b.jobs[j := Job(m, Ended)])
  {
    hide Do;
    var ev := b.queue.stream[b.jobs[j].msg];
    DeleteStep(b, j, maxRetries);
    var b2 := Do(b, Work(j, Delete(false)), maxRetries);
    ReadStep(b2, j, maxRetries);
    var b3 := Do(b2, Work(j, ReadUser), maxRetries);
    WriteStep(b3, j, b.db.balances[ev.user], maxRetries);
    AckStep(Do(b3, Work(j, WriteCache(false)), maxRetries), j, maxRetries);
  }

  lemma FailingSteps(b: Sys, j: nat, maxRetries: int)
    requires At(b, j, Failing)
    ensures Do(b, Work(j, Delete(false)), maxRetries) == Do(b, Work(j, ReadUser), maxRetries) == b
    ensures Do(b, Work(j, WriteCache(false)), maxRetries) == Do(b, Work(j, Acknowledge(false)), maxRetries) == b
  {
    hide AttemptNow, DeleteSession, Q.Ack, Q.Bury, Q.Deliver, Q.Reclaim, Q.Deliveries;
  }

  /** A failed delivery below the limit leaves the queue alone; at the limit the event gets one dead letter and its
      message is acknowledged as dead. */
  lemma GivingUp(b: Sys, j: nat, maxRetries: int)
    requires At(b, j, Failing) && b.jobs[j].msg in b.queue.pending
    ensures var m := b.jobs[j].msg;
            var c := Do(Do(b, Work(j, GiveUp(false, false)), maxRetries), Work(j, AckDead(false)), maxRetries);
            if b.queue.pending[m] < maxRetries then c == WithJob(b, j, Ended)
            else c == WithJob(b, j, Ended).(queue := b.queue.(pending := b.queue.pending - {m}, acked := b.queue.acked[m := Q.Dead],
                                                             dead := b.queue.dead + [b.queue.stream[m]]))
  {
    hide AttemptNow, DeleteSession, Q.Deliver, Q.Reclaim;
    var m := b.jobs[j].msg;
    var b1 := Do(b, Work(j, GiveUp(false, false)), maxRetries);
    if b.queue.pending[m] < maxRetries {
      assert b1 == WithJob(b, j, Ended);
    } else {
      assert b1 == WithJob(b, j, Copied(true)).(queue := b.queue.(dead := b.queue.dead + [b.queue.stream[m]]));
      assert b.jobs[j := Job(m, Copied(true))][j := Job(m, Ended)] == b.jobs[j := Job(m, Ended)];
    }
  }

  /** When the delivery count cannot be read the failed delivery counts as the first. */
  lemma GivingUpBlind(b: Sys, j: nat, lost: bool, maxRetries: int)
    requires At(b, j, Failing)
    ensures Do(b, Work(j, GiveUp(true, lost)), maxRetries)
         == if 1 < maxRetries then WithJob(b, j, Ended)
            else WithJob(b, j, Copied(!lost)).(
                   queue := b.queue.(dead := b.queue.dead + if lost then [] else [b.queue.stream[b.jobs[j].msg]]))
  {
    hide AttemptNow, DeleteSession, Q.Ack, Q.Deliver, Q.Reclaim, Q.Deliveries;
    assert b.queue.dead + [] == b.queue.dead;
  }

  // ----- an abandoned session -----

  /** The sweeper's round on one session: listing, reading, settling, deleting. */
  ghost function SweepRound(b: Sys, j: nat, id: string, maxRetries: int): Sys {
    var b1 := Do(b, Sweeping(j, List(id)), maxRetries);
    var b2 := Do(b1, Sweeping(j, ReadSession(false)), maxRetries);
    var b3 := Do(b2, Sweeping(j, SweepNow), maxRetries);
    Do(b3, Sweeping(j, DeleteSwept), maxRetries)
  }

  ghost function WithSweep(b: Sys, j: nat, id: string, phase: SweepPhase): Sys {
    b.(sweeps := b.sweeps[j := Sweep(id, phase)])
  }

  lemma ListStep(b: Sys, j: nat, id: string, maxRetries: int)
    requires j !in b.sweeps
    ensures Do(b, Sweeping(j, List(id)), maxRetries)
         == if id in b.db.sessions && b.db.sessions[id].expires < b.now then WithSweep(b, j, id, Listed) else b
  {
    hide SweepNowWith;
  }

  lemma ReadSessionStep(b: Sys, j: nat, fault: bool, maxRetries: int)
    requires j in b.sweeps && b.sweeps[j].phase.Listed?
    ensures var id := b.sweeps[j].id;
            Do(b, Sweeping(j, ReadSession(fault)), maxRetries)
            == WithSweep(b, j, id, Got(if !fault && id in b.db.sessions then b.db.sessions[id].hold else 0))
  {
    hide SweepNowWith;
  }

  lemma SweepNowStep(b: Sys, j: nat, maxRetries: int)
    requires Good(b) && j in b.sweeps && b.sweeps[j].phase.Got? && b.sweeps[j].id in b.db.sessions
    requires b.sweeps[j].phase.hold == b.db.sessions[b.sweeps[j].id].hold
    ensures var id := b.sweeps[j].id;
            var c := Do(b, Sweeping(j, SweepNow), maxRetries);
            && id in b.calls && b.calls[id].user in b.db.balances
            && (if forall r | r in b.db.rows :: r.key != ReleaseKey(id) then
                  && c == WithSweep(b, j, id, Swept).(db := c.db, settled := b.settled + {id})
                  && c.db.balances == b.db.balances[b.calls[id].user := b.db.balances[b.calls[id].user] + b.calls[id].hold]
                  && |c.db.rows| == |b.db.rows| + 1 && c.db.rows[|b.db.rows|].key == ReleaseKey(id)
                  && c.db.rows[|b.db.rows|].amount == b.calls[id].hold && c.db.sessions == b.db.sessions
                else c == WithSweep(b, j, id, Over))
  {
    hide Wired, Sound, AfterSettle, CanSettle;
    var id, hold := b.sweeps[j].id, b.sweeps[j].phase.hold;
    SweptCall(b, id);
    var user := b.calls[id].user;
    SettleGuard(b.db, user, id, hold, 0, "");
    SettleMoves(b.db, user, id, 0, hold, Failed, "");
    SettleFrame(b.db, user, id, 0, hold, Failed, "");
    SettlementRows(b.db, user, id, 0, hold, Failed, "");
  }

  lemma SweptCall(b: Sys, id: string)
    requires Good(b) && id in b.db.sessions
    ensures id in b.calls && id in b.db.logs && b.db.logs[id].user == b.calls[id].user
    ensures b.db.sessions[id].hold == b.calls[id].hold > 0
    ensures b.calls[id].user in b.db.balances && b.db.balances[b.calls[id].user] >= 0
  {
    hide Wired, UniqueKeys, RunningBalances, RowsShaped, HoldsRecorded;
    assert id in Abs(b).requests;
  }

  lemma DeleteSweptStep(b: Sys, j: nat, maxRetries: int)
    requires j in b.sweeps && (b.sweeps[j].phase.Swept? || b.sweeps[j].phase.Over? || b.sweeps[j].phase.Listed?)
    ensures var id := b.sweeps[j].id;
            Do(b, Sweeping(j, DeleteSwept), maxRetries)
            == if b.sweeps[j].phase.Swept?
               then WithSweep(b, j, id, Over).(db := b.db.(sessions := b.db.sessions - {id})) else b
  {
    hide SweepNowWith;
  }

  /** An undisturbed round on an expired session: if no row has its release key, its user gets the whole hold back under
      that key and the session is gone; otherwise the database is as it was. */
  lemma SweepRounds(b: Sys, j: nat, id: string, maxRetries: int)
    requires Good(b) && j !in b.sweeps && id in b.db.sessions && b.db.sessions[id].expires < b.now
    ensures var c := SweepRound(b, j, id, maxRetries);
            && id in b.calls && b.calls[id].user in b.db.balances
            && (if forall r | r in b.db.rows :: r.key != ReleaseKey(id) then
                  && c.db.balances == b.db.balances[b.calls[id].user := b.db.balances[b.calls[id].user] + b.calls[id].hold]
                  && |c.db.rows| == |b.db.rows| + 1 && c.db.rows[|b.db.rows|].key == ReleaseKey(id)
                  && c.db.rows[|b.db.rows|].amount == b.calls[id].hold
                  && c.db.sessions == b.db.sessions - {id} && c.settled == b.settled + {id}
                else c.db == b.db && c.settled == b.settled)
            && c.queue == b.queue && c.cache == b.cache && c.calls == b.calls
  {
    hide Do, Good;
    ListStep(b, j, id, maxRetries);
    var b1 := Do(b, Sweeping(j, List(id)), maxRetries);
    ReadSessionStep(b1, j, false, maxRetries);
    var b2 := Do(b1, Sweeping(j, ReadSession(false)), maxRetries);
    DoGood(b, Sweeping(j, List(id)), maxRetries);
    DoGood(b1, Sweeping(j, ReadSession(false)), maxRetries);
    SweepNowStep(b2, j, maxRetries);
    DeleteSweptStep(Do(b2, Sweeping(j, SweepNow), maxRetries), j, maxRetries);
  }

  /** A replayed dead letter is emitted again and stays where it is. */
  lemma ReplayStep(b: Sys, k: nat, maxRetries: int)
    requires k < |b.queue.dead|
    ensures Do(b, Replay(k), maxRetries) == b.(queue := b.queue.(stream := b.queue.stream + [b.queue.dead[k]]))
  {
    hide OnGateway, OnWork, OnSweep, OnAudit;
  }
}
