/**
 The whole service, interleaved: gateway calls, the Redis balance and reply caches, the event
 queue, worker attempts, sweeps, deposits and reconciliation.  Each PostgreSQL transaction,
 each Redis command and each emit or acknowledgement is one act; a Redis write or an emit can be
 lost; an actor that crashes simply never acts again.  Actors use what they carry: a call its
 own fields, a worker the event's fields, a sweep the hold it read.

 `Abs` forgets everything but the database and who placed a hold, `Erase` forgets every act
 that is not a transaction, and `ErasedRun` shows that what remains is a run of module Billing.
 */
module System {
  import opened Base
  import opened Keys
  import opened Ledger
  import opened Billing
  import Q = Queue

  datatype Response = Response(status: int, body: string)

  datatype Phase =
    | Arrived
    | Replayed(resp: Response)
    | Admitted
    | Missed
    | Fetched(balance: int)
    | Seen(balance: int)
    | HoldPlaced(left: int)
    | Published
    | Logged
    | Forwarded
    | Answered(resp: Response)
    | Closed

  /** One HTTP request between the idempotency middleware and the proxy. */
  datatype Call = Call(user: string, clientKey: string, path: string, hold: int, held: bool, phase: Phase)

  datatype GatewayAct =
    | Arrive(user: string, clientKey: string, path: string, hold: int)
    | Lookup(fault: bool)
    | ReadCache
    | Fetch
    | Fill(lost: bool)
    | Reserve
    | Publish(lost: bool)
    | Note
    | Open(expires: int)
    | Answer(resp: Response, lost: bool)
    | Remember(lost: bool)
    | Abort

  datatype JobPhase = Working | Committed | Deleted | Read(balance: int) | Written | Failing | Copied(kept: bool) | Ended

  /** One delivery of one message to a worker. */
  datatype Job = Job(msg: nat, phase: JobPhase)

  datatype JobAct =
    | Take
    | Claim(msg: nat)
    | Attempt(price: Option<nat>, status: Status)
    | Delete(lost: bool)
    | ReadUser
    | WriteCache(lost: bool)
    | Acknowledge(lost: bool)
    | GiveUp(fault: bool, lost: bool)
    | AckDead(lost: bool)

  datatype SweepPhase = Listed | Got(hold: int) | Swept | Over

  datatype Sweep = Sweep(id: string, phase: SweepPhase)

  datatype SweepAct = List(id: string) | ReadSession(fault: bool) | SweepNow | DeleteSwept

  datatype Act =
    | Gateway(id: string, g: GatewayAct)
    | Work(job: nat, w: JobAct)
    | Sweeping(job: nat, p: SweepAct)
    | Replay(k: nat)
    | NewUser(user: string)
    | TopUp(user: string, amount: int, key: string)
    | Reconciling(user: string)
    | Auditing(user: string, n: nat, k: nat, lost: bool)
    | Tick(seconds: nat)

  /** A stored 2xx reply; `caller` is the call that stored it. */
  datatype Entry = Entry(resp: Response, at: int, caller: string)

  datatype Sys = Sys(db: Db, settled: set<string>, cache: map<string, int>, calls: map<string, Call>,
                     replies: map<string, Entry>, queue: Q.Stream, jobs: map<nat, Job>, sweeps: map<nat, Sweep>, now: int)

  const START := Sys(INIT.db, {}, map[], map[], map[], Q.EMPTY, map[], map[], 0)

  /** idempotencyTTL, in seconds. */
  const REPLY_TTL := 86400

  /** idempotencyCacheKey */
  function CacheKey(user: string, clientKey: string, path: string): string {
    user + ":" + clientKey + ":" + path
  }

  function EventOf(id: string, c: Call): Q.Event {
    Q.Event(id, c.user, c.clientKey, c.hold)
  }

  predicate LiveReply(b: Sys, key: string) {
    key in b.replies && b.now < b.replies[key].at + REPLY_TTL
  }

  // ----- the gateway -----

  ghost function SetPhase(b: Sys, id: string, phase: Phase): Sys
    requires id in b.calls
  {
    b.(calls := b.calls[id := b.calls[id].(phase := phase)])
  }

  ghost function PutCache(b: Sys, user: string, balance: int, lost: bool): Sys {
    if lost then b else b.(cache := b.cache[user := balance])
  }

  /** ApplyHold, reached only when the balance looked sufficient. */
  ghost function ReserveNow(b: Sys, id: string): Sys
    requires id in b.calls
  {
    var c := b.calls[id];
    var key := HoldKey(KeyRef(id, c.clientKey));
    if c.phase.Seen? && c.phase.balance >= c.hold && CanHold(b.db, c.user, c.hold, key)
    then b.(db := AfterHold(b.db, c.user, c.hold, id, key),
            calls := b.calls[id := c.(held := true, phase := HoldPlaced(b.db.balances[c.user] - c.hold))])
    else SetPhase(b, id, Closed)
  }

  /** Idempotency lookup (one that fails is treated as a miss), then the balance check against Redis or, on a miss, PostgreSQL. */
  ghost function BeforeHold(b: Sys, id: string, g: GatewayAct): Sys
    requires id in b.calls
  {
    var c := b.calls[id];
    match g
    case Lookup(fault) =>
      var key := CacheKey(c.user, c.clientKey, c.path);
      if !c.phase.Arrived? then b
      else if !fault && c.clientKey != "" && LiveReply(b, key) then SetPhase(b, id, Replayed(b.replies[key].resp))
      else SetPhase(b, id, Admitted)
    case ReadCache =>
      if !c.phase.Admitted? then b
      else if c.user in b.cache then SetPhase(b, id, Seen(b.cache[c.user]))
      else SetPhase(b, id, Missed)
    case Fetch =>
      if !c.phase.Missed? then b
      else if c.user in b.db.balances then SetPhase(b, id, Fetched(b.db.balances[c.user]))
      else SetPhase(b, id, Closed)
    case Fill(lost) =>
      if !c.phase.Fetched? then b
      else PutCache(SetPhase(b, id, Seen(c.phase.balance)), c.user, c.phase.balance, lost)
    case _ => b
  }

  /** Cache write, usage log, session, proxying and emission, and the stored reply. */
  ghost function SinceHold(b: Sys, id: string, g: GatewayAct): Sys
    requires id in b.calls
  {
    var c := b.calls[id];
    match g
    case Publish(lost) =>
      if !c.phase.HoldPlaced? then b
      else PutCache(SetPhase(b, id, Published), c.user, c.phase.left, lost)
    case Note =>
      if !c.phase.Published? then b
      else if id in b.db.logs then SetPhase(b, id, Closed)
      else SetPhase(b.(db := InsertLog(b.db, id, c.user, c.hold)), id, Logged)
    case Open(expires) =>
      if !c.phase.Logged? then b
      else if id in b.db.sessions then SetPhase(b, id, Closed)
      else SetPhase(b.(db := InsertSession(b.db, id, c.user, c.hold, expires)), id, Forwarded)
    case Answer(resp, lost) =>
      if !c.phase.Forwarded? then b
      else
        var next := SetPhase(b, id, Answered(resp));
        if lost then next else next.(queue := Q.Emit(b.queue, EventOf(id, c)))
    case Remember(lost) =>
      if !c.phase.Answered? then b
      else
        var next := SetPhase(b, id, Closed);
        if lost || c.clientKey == "" || !(200 <= c.phase.resp.status < 300) then next
        else next.(replies := b.replies[CacheKey(c.user, c.clientKey, c.path) := Entry(c.phase.resp, b.now, id)])
    case _ => b
  }

  ghost function OnGateway(b: Sys, id: string, g: GatewayAct): Sys {
    if g.Arrive? then
      if id in b.calls || g.hold <= 0 then b
      else b.(calls := b.calls[id := Call(g.user, g.clientKey, g.path, g.hold, false, Arrived)])
    else if id !in b.calls then b
    else if g.Reserve? then
      if b.calls[id].phase.Seen? then ReserveNow(b, id) else b
    else if g.Abort? then
      if b.calls[id].phase.Replayed? then b else SetPhase(b, id, Closed)
    else if g.Lookup? || g.ReadCache? || g.Fetch? || g.Fill? then BeforeHold(b, id, g)
    else SinceHold(b, id, g)
  }

  // ----- the worker -----

  ghost function SetJob(b: Sys, j: nat, phase: JobPhase): Sys
    requires j in b.jobs
  {
    b.(jobs := b.jobs[j := b.jobs[j].(phase := phase)])
  }

  /** CaptureAndRelease with the event's own fields. */
  ghost function AttemptNow(b: Sys, j: nat, price: nat, status: Status): Sys
    requires j in b.jobs && b.jobs[j].msg < |b.queue.stream|
  {
    var ev := b.queue.stream[b.jobs[j].msg];
    var (capture, release) := CaptureRelease(ev.hold, price);
    if CanSettle(b.db, ev.user, ev.id, capture, release, ev.clientKey)
    then SetJob(b.(db := AfterSettle(b.db, ev.user, ev.id, capture, release, status, ev.clientKey),
                   settled := b.settled + {ev.id}), j, Committed)
    else SetJob(b, j, Failing)
  }

  ghost function OnWork(b: Sys, j: nat, w: JobAct, maxRetries: int): Sys {
    if w.Take? then
      if j in b.jobs || b.queue.cursor >= |b.queue.stream| then b
      else b.(queue := Q.Deliver(b.queue), jobs := b.jobs[j := Job(b.queue.cursor, Working)])
    else if w.Claim? then
      if j in b.jobs || w.msg !in b.queue.pending then b
      else b.(queue := Q.Reclaim(b.queue, w.msg), jobs := b.jobs[j := Job(w.msg, Working)])
    else if j !in b.jobs || b.jobs[j].msg >= |b.queue.stream| then b
    else
      var m := b.jobs[j].msg;
      var ev := b.queue.stream[m];
      var phase := b.jobs[j].phase;
      match w
      case Attempt(price, status) =>
        if !phase.Working? then b
        else if price == None then SetJob(b, j, Failing)
        else AttemptNow(b, j, price.value, status)
      case Delete(lost) =>
        if !phase.Committed? then b
        else SetJob(if lost then b else b.(db := DeleteSession(b.db, ev.id)), j, Deleted)
      case ReadUser =>
        if !phase.Deleted? then b
        else if ev.user in b.db.balances then SetJob(b, j, Read(b.db.balances[ev.user]))
        else SetJob(b, j, Written)
      case WriteCache(lost) =>
        if !phase.Read? then b else PutCache(SetJob(b, j, Written), ev.user, phase.balance, lost)
      case Acknowledge(lost) =>
        if !phase.Written? then b
        else SetJob(if lost then b else b.(queue := Q.Ack(b.queue, m, Q.Settled)), j, Ended)
      case GiveUp(fault, lost) =>
        // a failed XPENDING reads as one delivery, and a failed copy to the dead letters goes unnoticed
        if !phase.Failing? then b
        else if (if fault then 1 else Q.Deliveries(b.queue, m)) < maxRetries then SetJob(b, j, Ended)
        else SetJob(if lost then b else b.(queue := Q.Bury(b.queue, ev)), j, Copied(!lost))
      case AckDead(lost) =>
        if !phase.Copied? then b
        else SetJob(if lost then b else b.(queue := Q.Ack(b.queue, m, if phase.kept then Q.Dead else Q.Lost)), j, Ended)
  }

  // ----- the sweeper -----

  ghost function SetSweep(b: Sys, j: nat, phase: SweepPhase): Sys
    requires j in b.sweeps
  {
    b.(sweeps := b.sweeps[j := b.sweeps[j].(phase := phase)])
  }

  ghost function SweepNowWith(b: Sys, j: nat, id: string, hold: int): Sys
    requires j in b.sweeps
  {
    if id in b.db.logs && CanSettle(b.db, b.db.logs[id].user, id, 0, hold, "")
    then SetSweep(b.(db := AfterSettle(b.db, b.db.logs[id].user, id, 0, hold, Failed, ""),
                     settled := b.settled + {id}), j, Swept)
    else SetSweep(b, j, Over)
  }

  ghost function OnSweep(b: Sys, j: nat, p: SweepAct): Sys {
    if p.List? then
      if j in b.sweeps || p.id !in b.db.sessions || b.db.sessions[p.id].expires >= b.now then b
      else b.(sweeps := b.sweeps[j := Sweep(p.id, Listed)])
    else if j !in b.sweeps then b
    else
      var id := b.sweeps[j].id;
      var phase := b.sweeps[j].phase;
      match p
      case ReadSession(fault) =>
        if !phase.Listed? then b
        else SetSweep(b, j, Got(if fault || id !in b.db.sessions then 0 else b.db.sessions[id].hold))
      case SweepNow => if phase.Got? then SweepNowWith(b, j, id, phase.hold) else b
      case DeleteSwept => if phase.Swept? then SetSweep(b.(db := DeleteSession(b.db, id)), j, Over) else b
  }

  // ----- reconciliation without auto-fix -----

  /** One user's turn, as its last statement sees it: the balance was read when the ledger had n rows, the ledger
      when it had k, and if the two differ the balance read first is cached.  At any time a balance is its
      user's ledger sum, so the one read first is the sum of the first n rows. */
  ghost function OnAudit(b: Sys, user: string, n: nat, k: nat, lost: bool): Sys {
    if n <= k <= |b.db.rows| && user in b.db.balances && LedgerSum(b.db.rows[..n], user) != LedgerSum(b.db.rows[..k], user)
    then PutCache(b, user, LedgerSum(b.db.rows[..n], user), lost)
    else b
  }

  // ----- acts and runs -----

  ghost function Do(b: Sys, act: Act, maxRetries: int): Sys {
    match act
    case Gateway(id, g) => OnGateway(b, id, g)
    case Work(j, w) => OnWork(b, j, w, maxRetries)
    case Sweeping(j, p) => OnSweep(b, j, p)
    case Replay(k) => if k < |b.queue.dead| then b.(queue := Q.Emit(b.queue, b.queue.dead[k])) else b
    case NewUser(u) => if u in b.db.balances then b else b.(db := b.db.(balances := b.db.balances[u := 0]))
    case TopUp(u, amount, key) =>
      if CanDeposit(b.db, u, amount, Parse(key)) then b.(db := AfterDeposit(b.db, u, amount, Parse(key))) else b
    case Reconciling(u) => b.(db := Reconciled(b.db, u))
    case Auditing(u, n, k, lost) => OnAudit(b, u, n, k, lost)
    case Tick(seconds) => b.(now := b.now + seconds)
  }

  ghost function PlayFrom(b: Sys, acts: seq<Act>, maxRetries: int): Sys {
    if acts == [] then b else Do(PlayFrom(b, acts[..|acts| - 1], maxRetries), acts[|acts| - 1], maxRetries)
  }

  ghost function Play(acts: seq<Act>, maxRetries: int): Sys {
    PlayFrom(START, acts, maxRetries)
  }

  // ----- erasing everything but transactions -----

  ghost function HeldRequests(calls: map<string, Call>): map<string, Request> {
    map id | id in calls && calls[id].held :: Request(calls[id].user, calls[id].clientKey, calls[id].hold)
  }

  ghost function Abs(b: Sys): Core {
    Core(b.db, HeldRequests(b.calls), b.settled)
  }

  ghost function Erase(b: Sys, act: Act): Option<Step> {
    match act
    case Gateway(id, g) =>
      if id !in b.calls then None
      else
        var c := b.calls[id];
        if g.Reserve? && c.phase.Seen? && c.phase.balance >= c.hold then Some(PlaceHold(id, Request(c.user, c.clientKey, c.hold)))
        else if g.Note? && c.phase.Published? then Some(WriteLog(id))
        else if g.Open? && c.phase.Logged? then Some(OpenSession(id, g.expires))
        else None
    case Work(j, w) =>
      if j !in b.jobs || b.jobs[j].msg >= |b.queue.stream| then None
      else
        var ev := b.queue.stream[b.jobs[j].msg];
        if w.Attempt? && b.jobs[j].phase.Working? && w.price.Some?
        then Some(SettleUsage(ev.id, w.price.value, w.status))
        else if w.Delete? && b.jobs[j].phase.Committed? && !w.lost then Some(CloseSession(ev.id))
        else None
    case Sweeping(j, p) =>
      if j !in b.sweeps then None
      else if p.SweepNow? && b.sweeps[j].phase.Got? then Some(SweepHold(b.sweeps[j].id, b.sweeps[j].phase.hold))
      else if p.DeleteSwept? && b.sweeps[j].phase.Swept? then Some(CloseSession(b.sweeps[j].id))
      else None
    case NewUser(u) => Some(CreateUser(u))
    case TopUp(u, amount, key) => Some(DepositCredits(u, amount, key))
    case Reconciling(u) => Some(Reconcile(u))
    case _ => None
  }

  ghost function EraseAll(acts: seq<Act>, maxRetries: int): seq<Step> {
    if acts == [] then []
    else
      var front := acts[..|acts| - 1];
      match Erase(Play(front, maxRetries), acts[|acts| - 1])
      case None => EraseAll(front, maxRetries)
      case Some(step) => EraseAll(front, maxRetries) + [step]
  }

  // ----- the invariant that ties what actors carry to who holds -----

  ghost predicate CallOk(b: Sys, id: string) {
    id in b.calls &&
    var c := b.calls[id];
    && c.hold > 0
    && (c.phase.Arrived? || c.phase.Replayed? || c.phase.Admitted? || c.phase.Missed? || c.phase.Fetched? || c.phase.Seen?
        ==> !c.held)
    && (c.phase.HoldPlaced? || c.phase.Published? || c.phase.Logged? || c.phase.Forwarded? || c.phase.Answered? ==> c.held)
    && (c.phase.Logged? || c.phase.Forwarded? || c.phase.Answered? ==> id in b.db.logs)
  }

  /** The event was emitted by a call that holds, and carries that call's fields. */
  ghost predicate EventOk(b: Sys, ev: Q.Event) {
    ev.id in b.calls && b.calls[ev.id].held && ev == EventOf(ev.id, b.calls[ev.id])
  }

  ghost predicate JobOk(b: Sys, j: Job) {
    && j.msg < b.queue.cursor && j.msg < |b.queue.stream|
    && (j.phase.Committed? || j.phase.Deleted? || j.phase.Read? || j.phase.Written? ==> b.queue.stream[j.msg].id in b.settled)
    && (j.phase.Copied? && j.phase.kept ==> b.queue.stream[j.msg] in b.queue.dead)
  }

  ghost predicate SweepOk(b: Sys, w: Sweep) {
    && w.id in b.calls && b.calls[w.id].held && w.id in b.db.logs
    && (w.phase.Got? ==> w.phase.hold == 0 || w.phase.hold == b.calls[w.id].hold)
    && (w.phase.Swept? ==> w.id in b.settled)
  }

  ghost predicate FateOk(b: Sys, m: nat, fate: Q.Fate) {
    && m < |b.queue.stream|
    && (fate == Q.Settled ==> b.queue.stream[m].id in b.settled)
    && (fate == Q.Dead ==> b.queue.stream[m] in b.queue.dead)
  }

  /** A stored reply was stored by a call that held under that very cache key, and that call is over. */
  ghost predicate ReplyOk(b: Sys, key: string, e: Entry) {
    e.caller in b.calls &&
    var c := b.calls[e.caller];
    c.held && c.phase == Closed && c.clientKey != "" && key == CacheKey(c.user, c.clientKey, c.path) && e.at <= b.now
  }

  ghost predicate CallsOk(b: Sys) { forall id | id in b.calls :: CallOk(b, id) }
  ghost predicate EventsOk(b: Sys, evs: seq<Q.Event>) { forall i | 0 <= i < |evs| :: EventOk(b, evs[i]) }
  ghost predicate JobsOk(b: Sys) { forall j | j in b.jobs :: JobOk(b, b.jobs[j]) }
  ghost predicate SweepsOk(b: Sys) { forall j | j in b.sweeps :: SweepOk(b, b.sweeps[j]) }
  ghost predicate FatesOk(b: Sys) { forall m | m in b.queue.acked :: FateOk(b, m, b.queue.acked[m]) }
  ghost predicate RepliesOk(b: Sys) { forall k | k in b.replies :: ReplyOk(b, k, b.replies[k]) }

  ghost predicate Wired(b: Sys) {
    && CallsOk(b) && EventsOk(b, b.queue.stream) && EventsOk(b, b.queue.dead)
    && JobsOk(b) && SweepsOk(b) && FatesOk(b) && RepliesOk(b) && Q.Accounted(b.queue)
  }

  // ----- facts about the past never change -----

  ghost predicate Grows(b: Sys, c: Sys) {
    && (forall id | id in b.calls ::
          && id in c.calls
          && c.calls[id].(held := b.calls[id].held, phase := b.calls[id].phase) == b.calls[id]
          && (b.calls[id].held ==> c.calls[id].held)
          && (b.calls[id].phase == Closed ==> c.calls[id].phase == Closed))
    && b.queue.stream <= c.queue.stream && b.queue.dead <= c.queue.dead && b.queue.cursor <= c.queue.cursor
    && b.settled <= c.settled && b.db.logs.Keys <= c.db.logs.Keys && b.now <= c.now
  }

  lemma EventStays(b: Sys, c: Sys, ev: Q.Event)
    requires EventOk(b, ev) && Grows(b, c)
    ensures EventOk(c, ev)
  {
  }

  lemma PrefixIn(s: seq<Q.Event>, t: seq<Q.Event>, x: Q.Event)
    requires s <= t && x in s
    ensures x in t
  {
    var i :| 0 <= i < |s| && s[i] == x;
    assert t[i] == x;
  }

  lemma JobStays(b: Sys, c: Sys, j: Job)
    requires JobOk(b, j) && Grows(b, c)
    ensures JobOk(c, j)
  {
    assert c.queue.stream[j.msg] == b.queue.stream[j.msg];
    if j.phase.Copied? && j.phase.kept {
      PrefixIn(b.queue.dead, c.queue.dead, b.queue.stream[j.msg]);
    }
  }

  lemma SweepStays(b: Sys, c: Sys, w: Sweep)
    requires SweepOk(b, w) && Grows(b, c)
    ensures SweepOk(c, w)
  {
  }

  lemma FateStays(b: Sys, c: Sys, m: nat, fate: Q.Fate)
    requires FateOk(b, m, fate) && Grows(b, c)
    ensures FateOk(c, m, fate)
  {
    assert c.queue.stream[m] == b.queue.stream[m];
    if fate == Q.Dead {
      PrefixIn(b.queue.dead, c.queue.dead, b.queue.stream[m]);
    }
  }

  lemma ReplyStays(b: Sys, c: Sys, key: string, e: Entry)
    requires ReplyOk(b, key, e) && Grows(b, c)
    ensures ReplyOk(c, key, e)
  {
    hide CacheKey;
  }

  /** What an act adds must be right; what was there stays right. */
  ghost predicate Additions(b: Sys, c: Sys) {
    && (forall id | id in c.calls :: (id in b.calls && c.calls[id] == b.calls[id]) || CallOk(c, id))
    && (forall i | |b.queue.stream| <= i < |c.queue.stream| :: EventOk(c, c.queue.stream[i]))
    && (forall i | |b.queue.dead| <= i < |c.queue.dead| :: EventOk(c, c.queue.dead[i]))
    && (forall j | j in c.jobs :: (j in b.jobs && c.jobs[j] == b.jobs[j]) || JobOk(c, c.jobs[j]))
    && (forall j | j in c.sweeps :: (j in b.sweeps && c.sweeps[j] == b.sweeps[j]) || SweepOk(c, c.sweeps[j]))
    && (forall m | m in c.queue.acked ::
          (m in b.queue.acked && c.queue.acked[m] == b.queue.acked[m]) || FateOk(c, m, c.queue.acked[m]))
    && (forall k | k in c.replies :: (k in b.replies && c.replies[k] == b.replies[k]) || ReplyOk(c, k, c.replies[k]))
    && Q.Accounted(c.queue)
  }

  lemma EventsStay(b: Sys, c: Sys, before: seq<Q.Event>, after: seq<Q.Event>)
    requires EventsOk(b, before) && Grows(b, c) && before <= after
    requires forall i | |before| <= i < |after| :: EventOk(c, after[i])
    ensures EventsOk(c, after)
  {
    hide Grows, EventOk;
    forall i | 0 <= i < |after| ensures EventOk(c, after[i]) {
      if i < |before| {
        assert after[i] == before[i];
        EventStays(b, c, before[i]);
      }
    }
  }

  lemma WiredStays(b: Sys, c: Sys)
    requires Wired(b) && Grows(b, c) && Additions(b, c)
    ensures Wired(c)
  {
    hide EventOk, JobOk, SweepOk, FateOk, ReplyOk, Q.Accounted;
    forall id | id in c.calls ensures CallOk(c, id) {
      if id in b.calls {
        assert CallOk(b, id);
      }
    }
    EventsStay(b, c, b.queue.stream, c.queue.stream);
    EventsStay(b, c, b.queue.dead, c.queue.dead);
    forall j | j in c.jobs ensures JobOk(c, c.jobs[j]) {
      if j in b.jobs && c.jobs[j] == b.jobs[j] {
        JobStays(b, c, b.jobs[j]);
      }
    }
    forall j | j in c.sweeps ensures SweepOk(c, c.sweeps[j]) {
      if j in b.sweeps && c.sweeps[j] == b.sweeps[j] {
        SweepStays(b, c, b.sweeps[j]);
      }
    }
    forall m | m in c.queue.acked ensures FateOk(c, m, c.queue.acked[m]) {
      if m in b.queue.acked && c.queue.acked[m] == b.queue.acked[m] {
        FateStays(b, c, m, b.queue.acked[m]);
      }
    }
    forall k | k in c.replies ensures ReplyOk(c, k, c.replies[k]) {
      if k in b.replies && c.replies[k] == b.replies[k] {
        ReplyStays(b, c, k, b.replies[k]);
      }
    }
  }
}
