/**
 What a cached balance can be, in any run.

 Every value written to the Redis balance was once the PostgreSQL balance: it is the user's ledger sum
 after some number of rows.  It exceeds the balance of today exactly when the rows since sum to less
 than zero, whichever write it was, however late, and whichever writes were lost.
 */
module CacheHistory {
  import opened Ledger
  import opened Billing
  import opened System
  import opened Erasure
  import opened Settlement
  import opened SerialCache
  import Q = Queue

  /** The user's balance when the ledger had n rows, for some n. */
  ghost predicate Past(db: Db, user: string, value: int) {
    user in db.balances && exists n | 0 <= n <= |db.rows| :: SumIs(db.rows, n, user, value)
  }

  ghost predicate SumIs(rows: seq<Row>, n: nat, user: string, value: int)
    requires n <= |rows|
  {
    value == LedgerSum(rows[..n], user)
  }

  /** More rows, and more users. */
  ghost predicate Extends(db: Db, more: Db) {
    db.rows <= more.rows && db.balances.Keys <= more.balances.Keys
  }

  lemma PastStays(db: Db, more: Db, user: string, value: int)
    requires Past(db, user, value) && Extends(db, more)
    ensures Past(more, user, value)
  {
    var n :| 0 <= n <= |db.rows| && SumIs(db.rows, n, user, value);
    assert more.rows[..n] == db.rows[..n];
    assert SumIs(more.rows, n, user, value);
  }

  lemma PastNow(s: Core, user: string)
    requires Sound(s) && user in s.db.balances
    ensures Past(s.db, user, s.db.balances[user])
  {
    var rows := s.db.rows;
    assert rows[..|rows|] == rows;
    assert SumIs(rows, |rows|, user, s.db.balances[user]);
  }

  // ----- who carries a balance -----

  ghost predicate CallPast(db: Db, c: Call) {
    && (c.phase.Fetched? ==> Past(db, c.user, c.phase.balance))
    && (c.phase.HoldPlaced? ==> Past(db, c.user, c.phase.left))
  }

  ghost predicate JobPast(db: Db, stream: seq<Q.Event>, j: Job) {
    j.phase.Read? ==> j.msg < |stream| && Past(db, stream[j.msg].user, j.phase.balance)
  }

  ghost predicate CachePast(db: Db, cache: map<string, int>) {
    forall u | u in cache :: Past(db, u, cache[u])
  }

  ghost predicate CallsPast(db: Db, calls: map<string, Call>) {
    forall id | id in calls :: CallPast(db, calls[id])
  }

  ghost predicate JobsPast(db: Db, stream: seq<Q.Event>, jobs: map<nat, Job>) {
    forall j | j in jobs :: JobPast(db, stream, jobs[j])
  }

  ghost predicate AllPast(b: Sys) {
    CachePast(b.db, b.cache) && CallsPast(b.db, b.calls) && JobsPast(b.db, b.queue.stream, b.jobs)
  }

  /** What was once a balance still was when more rows have been written. */
  lemma ItemsStay(b: Sys, db: Db, stream: seq<Q.Event>)
    requires AllPast(b) && Extends(b.db, db) && b.queue.stream <= stream
    ensures CachePast(db, b.cache) && CallsPast(db, b.calls) && JobsPast(db, stream, b.jobs)
  {
    hide Past;
    forall u | u in b.cache ensures Past(db, u, b.cache[u]) {
      PastStays(b.db, db, u, b.cache[u]);
    }
    forall id | id in b.calls ensures CallPast(db, b.calls[id]) {
      CallStays(b.db, db, b.calls[id]);
    }
    forall j | j in b.jobs ensures JobPast(db, stream, b.jobs[j]) {
      var job := b.jobs[j];
      if job.phase.Read? {
        PastStays(b.db, db, b.queue.stream[job.msg].user, job.phase.balance);
      }
    }
  }

  lemma CallStays(db: Db, more: Db, c: Call)
    requires CallPast(db, c) && Extends(db, more)
    ensures CallPast(more, c)
  {
    hide Past;
    if c.phase.Fetched? {
      PastStays(db, more, c.user, c.phase.balance);
    }
    if c.phase.HoldPlaced? {
      PastStays(db, more, c.user, c.phase.left);
    }
  }

  // ----- what each act does to the carriers -----

  /** A call that newly carries a balance carries today's. */
  ghost predicate CarriesToday(db: Db, c: Call) {
    && (c.phase.Fetched? ==> c.user in db.balances && c.phase.balance == db.balances[c.user])
    && (c.phase.HoldPlaced? ==> c.user in db.balances && c.phase.left == db.balances[c.user])
  }

  /** The cache is as it was, or has the balance the call carries. */
  ghost predicate CachedFrom(cache: map<string, int>, c: Call, now: map<string, int>) {
    || now == cache
    || (c.phase.Fetched? && now == cache[c.user := c.phase.balance])
    || (c.phase.HoldPlaced? && now == cache[c.user := c.phase.left])
  }

  lemma PhaseItems(b: Sys, id: string, p: Phase)
    requires id in b.calls
    ensures var c := SetPhase(b, id, p);
            c.calls == b.calls[id := b.calls[id].(phase := p)] && c.cache == b.cache && c.db == b.db
  {
  }

  lemma PutItems(b: Sys, user: string, balance: int, lost: bool)
    ensures var c := PutCache(b, user, balance, lost);
            c.calls == b.calls && c.db == b.db && c.cache == if lost then b.cache else b.cache[user := balance]
  {
  }

  ghost predicate GatewayStep(b: Sys, id: string, c: Sys) {
    && id in b.calls && CachedFrom(b.cache, b.calls[id], c.cache)
    && (c.calls == b.calls || (id in c.calls && c.calls == b.calls[id := c.calls[id]] && CarriesToday(c.db, c.calls[id])))
  }

  lemma BeforeHoldStep(b: Sys, id: string, g: GatewayAct)
    requires id in b.calls
    ensures GatewayStep(b, id, BeforeHold(b, id, g))
  {
    hide CacheKey, SetPhase, PutCache;
    var c := b.calls[id];
    PhaseItems(b, id, Admitted);
    PhaseItems(b, id, Missed);
    PhaseItems(b, id, Closed);
    match g
    case Lookup(_) =>
      var key := CacheKey(c.user, c.clientKey, c.path);
      if LiveReply(b, key) {
        PhaseItems(b, id, Replayed(b.replies[key].resp));
      }
    case ReadCache =>
      if c.user in b.cache {
        PhaseItems(b, id, Seen(b.cache[c.user]));
      }
    case Fetch =>
      if c.user in b.db.balances {
        PhaseItems(b, id, Fetched(b.db.balances[c.user]));
      }
    case Fill(lost) =>
      if c.phase.Fetched? {
        PhaseItems(b, id, Seen(c.phase.balance));
        PutItems(SetPhase(b, id, Seen(c.phase.balance)), c.user, c.phase.balance, lost);
      }
    case _ =>
  }

  lemma SinceHoldStep(b: Sys, id: string, g: GatewayAct)
    requires id in b.calls
    ensures GatewayStep(b, id, SinceHold(b, id, g))
  {
    hide InsertLog, InsertSession, CacheKey, Q.Emit, EventOf, SetPhase, PutCache;
    var c := b.calls[id];
    PhaseItems(b, id, Closed);
    match g
    case Publish(lost) =>
      if c.phase.HoldPlaced? {
        PhaseItems(b, id, Published);
        PutItems(SetPhase(b, id, Published), c.user, c.phase.left, lost);
      }
    case Note => PhaseItems(b.(db := InsertLog(b.db, id, c.user, c.hold)), id, Logged);
    case Open(expires) => PhaseItems(b.(db := InsertSession(b.db, id, c.user, c.hold, expires)), id, Forwarded);
    case Answer(resp, _) => PhaseItems(b, id, Answered(resp));
    case _ =>
  }

  lemma ReserveStep(b: Sys, id: string)
    requires id in b.calls && b.calls[id].phase.Seen?
    ensures GatewayStep(b, id, ReserveNow(b, id))
  {
    hide KeyFree, KeyRef;
  }

  lemma OnGatewayStep(b: Sys, id: string, g: GatewayAct)
    ensures var c := OnGateway(b, id, g);
            if id in b.calls then GatewayStep(b, id, c)
            else c.cache == b.cache && (c.calls == b.calls || (id in c.calls && c.calls == b.calls[id := c.calls[id]]
                                                               && c.calls[id].phase.Arrived?))
  {
    hide BeforeHold, SinceHold, ReserveNow;
    if id in b.calls {
      BeforeHoldStep(b, id, g);
      SinceHoldStep(b, id, g);
      if b.calls[id].phase.Seen? {
        ReserveStep(b, id);
      }
    }
  }

  /** One delivery: it carries today's balance when it has just read it, and may cache what it carries. */
  ghost predicate WorkStep(b: Sys, j: nat, c: Sys) {
    && c.calls == b.calls
    && (|| c.jobs == b.jobs
        || (&& j in c.jobs && c.jobs == b.jobs[j := c.jobs[j]]
            && (c.jobs[j].phase.Read? ==> ReadsToday(b, c.jobs[j]))))
    && (|| c.cache == b.cache
        || (&& j in b.jobs && b.jobs[j].phase.Read? && b.jobs[j].msg < |b.queue.stream|
            && c.cache == b.cache[b.queue.stream[b.jobs[j].msg].user := b.jobs[j].phase.balance]))
  }

  ghost predicate ReadsToday(b: Sys, job: Job)
    requires job.phase.Read?
  {
    && job.msg < |b.queue.stream|
    && var user := b.queue.stream[job.msg].user;
       user in b.db.balances && job.phase.balance == b.db.balances[user]
  }

  lemma JobItems(b: Sys, j: nat, phase: JobPhase)
    requires j in b.jobs
    ensures var c := SetJob(b, j, phase);
            c.jobs == b.jobs[j := b.jobs[j].(phase := phase)] && c.calls == b.calls && c.cache == b.cache
  {
  }

  lemma PutJobs(b: Sys, user: string, balance: int, lost: bool)
    ensures PutCache(b, user, balance, lost).jobs == b.jobs
  {
  }

  lemma AttemptStep(b: Sys, j: nat, price: nat, status: Status)
    requires j in b.jobs && b.jobs[j].msg < |b.queue.stream|
    ensures WorkStep(b, j, AttemptNow(b, j, price, status))
  {
    hide CanSettle, AfterSettle, CaptureRelease, SetJob;
    var ev := b.queue.stream[b.jobs[j].msg];
    var (capture, release) := CaptureRelease(ev.hold, price);
    JobItems(b, j, Failing);
    if CanSettle(b.db, ev.user, ev.id, capture, release, ev.clientKey) {
      CanSettleUser(b.db, ev.user, ev.id, capture, release, ev.clientKey);
      JobItems(b.(db := AfterSettle(b.db, ev.user, ev.id, capture, release, status, ev.clientKey),
                  settled := b.settled + {ev.id}), j, Committed);
    }
  }

  lemma OnWorkStep(b: Sys, j: nat, w: JobAct, maxRetries: int)
    ensures WorkStep(b, j, OnWork(b, j, w, maxRetries))
  {
    hide AttemptNow, DeleteSession, SetJob, PutCache, Q.Bury, Q.Ack, Q.Deliver, Q.Reclaim, Q.Deliveries;
    if !w.Take? && !w.Claim? && j in b.jobs && b.jobs[j].msg < |b.queue.stream| {
      var k, phase := b.jobs[j].msg, b.jobs[j].phase;
      var ev := b.queue.stream[k];
      JobItems(b, j, Ended);
      match w
      case Attempt(price, status) =>
        JobItems(b, j, Failing);
        if price.Some? {
          AttemptStep(b, j, price.value, status);
        }
      case Delete(lost) => JobItems(if lost then b else b.(db := DeleteSession(b.db, ev.id)), j, Deleted);
      case ReadUser =>
        JobItems(b, j, Written);
        if ev.user in b.db.balances {
          JobItems(b, j, Read(b.db.balances[ev.user]));
        }
      case WriteCache(lost) =>
        if phase.Read? {
          JobItems(b, j, Written);
          PutItems(SetJob(b, j, Written), ev.user, phase.balance, lost);
          PutJobs(SetJob(b, j, Written), ev.user, phase.balance, lost);
        }
      case Acknowledge(lost) => JobItems(b.(queue := Q.Ack(b.queue, k, Q.Settled)), j, Ended);
      case GiveUp(fault, lost) => JobItems(if lost then b else b.(queue := Q.Bury(b.queue, ev)), j, Copied(!lost));
      case AckDead(lost) =>
        if phase.Copied? {
          JobItems(b.(queue := Q.Ack(b.queue, k, if phase.kept then Q.Dead else Q.Lost)), j, Ended);
        }
    }
  }

  // ----- every act keeps it -----

  lemma GatewayPast(b: Sys, id: string, g: GatewayAct)
    requires AllPast(b) && Sound(Abs(OnGateway(b, id, g)))
    requires var c := OnGateway(b, id, g); Extends(b.db, c.db) && b.queue.stream <= c.queue.stream && c.jobs == b.jobs
    ensures AllPast(OnGateway(b, id, g))
  {
    hide OnGateway, Past, Sound;
    var c := OnGateway(b, id, g);
    OnGatewayStep(b, id, g);
    ItemsStay(b, c.db, c.queue.stream);
    if id in c.calls && c.calls[id].user in c.db.balances {
      PastNow(Abs(c), c.calls[id].user);
    }
  }

  lemma WorkPast(b: Sys, j: nat, w: JobAct, maxRetries: int)
    requires AllPast(b) && Sound(Abs(b))
    requires var c := OnWork(b, j, w, maxRetries); Extends(b.db, c.db) && b.queue.stream <= c.queue.stream
    ensures AllPast(OnWork(b, j, w, maxRetries))
  {
    hide OnWork, Past, Sound;
    var c := OnWork(b, j, w, maxRetries);
    OnWorkStep(b, j, w, maxRetries);
    ItemsStay(b, c.db, c.queue.stream);
    if j in c.jobs && c.jobs[j].phase.Read? && ReadsToday(b, c.jobs[j]) {
      var user := b.queue.stream[c.jobs[j].msg].user;
      PastNow(Abs(b), user);
      PastStays(b.db, c.db, user, b.db.balances[user]);
    }
  }

  lemma AuditPast(b: Sys, user: string, n: nat, k: nat, lost: bool)
    requires AllPast(b)
    ensures AllPast(OnAudit(b, user, n, k, lost))
  {
    hide LedgerSum;
    if n <= k <= |b.db.rows| {
      assert SumIs(b.db.rows, n, user, LedgerSum(b.db.rows[..n], user));
    }
  }

  lemma StreamGrows(b: Sys, act: Act, maxRetries: int)
    ensures b.queue.stream <= Do(b, act, maxRetries).queue.stream
  {
    hide OnGateway, OnWork, OnSweep, OnAudit, Reconciled, CanDeposit, AfterDeposit;
    match act
    case Gateway(id, g) => GatewayStream(b, id, g);
    case Work(j, w) => WorkStream(b, j, w, maxRetries);
    case Sweeping(j, p) => SweepKeepsRest(b, j, p);
    case Auditing(u, n, k, lost) => AuditKeepsRest(b, u, n, k, lost);
    case _ =>
  }

  lemma GatewayStream(b: Sys, id: string, g: GatewayAct)
    ensures b.queue.stream <= OnGateway(b, id, g).queue.stream
  {
    hide BeforeHold, SinceHold, CanHold, AfterHold;
    if id in b.calls {
      BeforeHoldKeepsJobs(b, id, g);
      SinceHoldStream(b, id, g);
    }
  }

  lemma SinceHoldStream(b: Sys, id: string, g: GatewayAct)
    requires id in b.calls
    ensures b.queue.stream <= SinceHold(b, id, g).queue.stream
  {
    hide InsertLog, InsertSession, CacheKey, EventOf;
  }

  lemma WorkStream(b: Sys, j: nat, w: JobAct, maxRetries: int)
    ensures OnWork(b, j, w, maxRetries).queue.stream == b.queue.stream
  {
    hide CanSettle, AfterSettle, CaptureRelease, DeleteSession;
  }

  lemma OthersKeepCarriers(b: Sys, act: Act, maxRetries: int)
    requires !act.Gateway? && !act.Work? && !act.Auditing?
    ensures var c := Do(b, act, maxRetries); c.cache == b.cache && c.calls == b.calls && c.jobs == b.jobs
  {
    hide OnGateway, OnWork, OnSweep, OnAudit, Reconciled, CanDeposit, AfterDeposit, Q.Emit;
    if act.Sweeping? {
      SweepKeepsRest(b, act.job, act.p);
    }
  }

  lemma DbGrows(b: Sys, act: Act, maxRetries: int)
    requires Good(b)
    ensures Extends(b.db, Do(b, act, maxRetries).db)
  {
    hide Wired, Sound, Do, Apply, Erase, Debits;
    RowsGrow(b, act, maxRetries);
    DoSim(b, act, maxRetries);
    if Erase(b, act).Some? {
      forall u | u in b.db.balances ensures u in Do(b, act, maxRetries).db.balances {
        EveryDebitIsCovered(Abs(b), Erase(b, act).value, u);
      }
    }
  }

  lemma DoPast(b: Sys, act: Act, maxRetries: int)
    requires Good(b) && AllPast(b)
    ensures AllPast(Do(b, act, maxRetries))
  {
    hide AllPast, Sound, Wired, OnGateway, OnWork, OnAudit, OnSweep;
    DoGood(b, act, maxRetries);
    DbGrows(b, act, maxRetries);
    StreamGrows(b, act, maxRetries);
    match act
    case Gateway(id, g) =>
      GatewayKeepsJobs(b, id, g);
      GatewayPast(b, id, g);
    case Work(j, w) => WorkPast(b, j, w, maxRetries);
    case Auditing(u, n, k, lost) => AuditPast(b, u, n, k, lost);
    case _ =>
      OthersKeepCarriers(b, act, maxRetries);
      CarriersStay(b, Do(b, act, maxRetries));
  }

  lemma CarriersStay(b: Sys, c: Sys)
    requires AllPast(b) && Extends(b.db, c.db) && b.queue.stream <= c.queue.stream
    requires c.cache == b.cache && c.calls == b.calls && c.jobs == b.jobs
    ensures AllPast(c)
  {
    hide CachePast, CallsPast, JobsPast;
    ItemsStay(b, c.db, c.queue.stream);
  }

  lemma {:induction false} PlayPast(acts: seq<Act>, maxRetries: int)
    ensures Good(Play(acts, maxRetries)) && AllPast(Play(acts, maxRetries))
  {
    hide Good, AllPast, Do;
    if acts == [] {
      StartGood();
      StartPast();
    } else {
      PlayPast(acts[..|acts| - 1], maxRetries);
      DoGood(Play(acts[..|acts| - 1], maxRetries), acts[|acts| - 1], maxRetries);
      DoPast(Play(acts[..|acts| - 1], maxRetries), acts[|acts| - 1], maxRetries);
    }
  }

  lemma StartPast()
    ensures AllPast(START)
  {
  }

  /** In every run, a cached balance is what the user's balance was after some number of ledger rows; it exceeds
      today's exactly when the user's rows since sum to less than zero. */
  lemma CachedIsPast(acts: seq<Act>, maxRetries: int, user: string) returns (n: nat)
    requires user in Play(acts, maxRetries).cache
    ensures var b := Play(acts, maxRetries);
            && user in b.db.balances
            && n <= |b.db.rows| && b.cache[user] == LedgerSum(b.db.rows[..n], user)
            && b.db.balances[user] == b.cache[user] + LedgerSum(b.db.rows[n..], user)
            && (b.cache[user] <= b.db.balances[user] <==> LedgerSum(b.db.rows[n..], user) >= 0)
  {
    hide Play, Wired, Sound, Total;
    PlayPast(acts, maxRetries);
    var b := Play(acts, maxRetries);
    assert Past(b.db, user, b.cache[user]);
    n :| 0 <= n <= |b.db.rows| && SumIs(b.db.rows, n, user, b.cache[user]);
    assert b.db.rows[..n] + b.db.rows[n..] == b.db.rows;
    TotalConcat(b.db.rows[..n], b.db.rows[n..], OfUser(user));
    BalanceIsSum(Abs(b), user);
  }

  lemma BalanceIsSum(s: Core, user: string)
    requires Sound(s) && user in s.db.balances
    ensures s.db.balances[user] == LedgerSum(s.db.rows, user)
  {
  }
}
