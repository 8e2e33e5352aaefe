/** Every act of the service is a step of the billing protocol or none at all. */
module Simulation {
  import opened Base
  import opened Keys
  import opened Ledger
  import opened Billing
  import opened System
  import Q = Queue

  ghost function Applied(s: Core, step: Option<Step>): Core {
    match step
    case None => s
    case Some(x) => Apply(s, x)
  }

  // ----- one field at a time keeps the wiring -----

  lemma CallWired(b: Sys, id: string, c: Call)
    requires Wired(b) && id in b.calls && c.(held := b.calls[id].held, phase := b.calls[id].phase) == b.calls[id]
    requires b.calls[id].held ==> c.held
    requires b.calls[id].phase == Closed ==> c.phase == Closed
    requires CallOk(b.(calls := b.calls[id := c]), id)
    ensures Wired(b.(calls := b.calls[id := c]))
  {
    hide CallOk, EventOk, JobOk, SweepOk, FateOk, ReplyOk, Q.Accounted;
    WiredStays(b, b.(calls := b.calls[id := c]));
  }

  lemma NewCallWired(b: Sys, id: string, c: Call)
    requires Wired(b) && id !in b.calls && c.hold > 0 && c.phase == Arrived && !c.held
    ensures Wired(b.(calls := b.calls[id := c]))
  {
    hide EventOk, JobOk, SweepOk, FateOk, ReplyOk, Q.Accounted;
    WiredStays(b, b.(calls := b.calls[id := c]));
  }

  /** A transaction may add usage logs and settled ids. */
  lemma DbWired(b: Sys, db: Db, settled: set<string>)
    requires Wired(b) && b.db.logs.Keys <= db.logs.Keys && b.settled <= settled
    ensures Wired(b.(db := db, settled := settled))
  {
    hide CallOk, EventOk, JobOk, SweepOk, FateOk, ReplyOk, Q.Accounted;
    WiredStays(b, b.(db := db, settled := settled));
  }

  lemma CacheWired(b: Sys, cache: map<string, int>)
    requires Wired(b)
    ensures Wired(b.(cache := cache))
  {
    hide CallOk, EventOk, JobOk, SweepOk, FateOk, ReplyOk, Q.Accounted;
    WiredStays(b, b.(cache := cache));
  }

  lemma JobWired(b: Sys, j: nat, job: Job)
    requires Wired(b) && JobOk(b.(jobs := b.jobs[j := job]), job)
    ensures Wired(b.(jobs := b.jobs[j := job]))
  {
    hide CallOk, EventOk, JobOk, SweepOk, FateOk, ReplyOk, Q.Accounted;
    WiredStays(b, b.(jobs := b.jobs[j := job]));
  }

  lemma SweepWired(b: Sys, j: nat, w: Sweep)
    requires Wired(b) && SweepOk(b.(sweeps := b.sweeps[j := w]), w)
    ensures Wired(b.(sweeps := b.sweeps[j := w]))
  {
    hide CallOk, EventOk, JobOk, SweepOk, FateOk, ReplyOk, Q.Accounted;
    WiredStays(b, b.(sweeps := b.sweeps[j := w]));
  }

  lemma ReplyWired(b: Sys, key: string, e: Entry)
    requires Wired(b) && ReplyOk(b.(replies := b.replies[key := e]), key, e)
    ensures Wired(b.(replies := b.replies[key := e]))
  {
    hide CallOk, EventOk, JobOk, SweepOk, FateOk, ReplyOk, Q.Accounted;
    WiredStays(b, b.(replies := b.replies[key := e]));
  }

  lemma QueueWired(b: Sys, q: Q.Stream)
    requires Wired(b) && b.queue.stream <= q.stream && b.queue.dead <= q.dead && b.queue.cursor <= q.cursor
    requires forall i | |b.queue.stream| <= i < |q.stream| :: EventOk(b, q.stream[i])
    requires forall i | |b.queue.dead| <= i < |q.dead| :: EventOk(b, q.dead[i])
    requires forall m | m in q.acked :: (m in b.queue.acked && q.acked[m] == b.queue.acked[m]) || FateOk(b.(queue := q), m, q.acked[m])
    requires Q.Accounted(q)
    ensures Wired(b.(queue := q))
  {
    hide CallOk, JobOk, SweepOk, FateOk, ReplyOk, Q.Accounted;
    WiredStays(b, b.(queue := q));
  }

  // ----- reading the wiring -----

  lemma WiredCall(b: Sys, id: string)
    requires Wired(b) && id in b.calls
    ensures CallOk(b, id)
  {
  }

  lemma WiredJob(b: Sys, j: nat)
    requires Wired(b) && j in b.jobs
    ensures JobOk(b, b.jobs[j]) && EventOk(b, b.queue.stream[b.jobs[j].msg])
  {
    assert JobOk(b, b.jobs[j]);
  }

  lemma WiredSweep(b: Sys, j: nat)
    requires Wired(b) && j in b.sweeps
    ensures SweepOk(b, b.sweeps[j])
  {
  }

  lemma WiredQueue(b: Sys)
    requires Wired(b)
    ensures Q.Accounted(b.queue)
  {
  }

  // ----- the gateway keeps it -----

  lemma PhaseWired(b: Sys, id: string, phase: Phase)
    requires Wired(b) && id in b.calls && (b.calls[id].phase == Closed ==> phase == Closed)
    requires phase.Arrived? || phase.Replayed? || phase.Admitted? || phase.Missed? || phase.Fetched? || phase.Seen? ==> !b.calls[id].held
    requires phase.HoldPlaced? || phase.Published? || phase.Logged? || phase.Forwarded? || phase.Answered? ==> b.calls[id].held
    requires phase.Logged? || phase.Forwarded? || phase.Answered? ==> id in b.db.logs
    ensures Wired(SetPhase(b, id, phase))
  {
    hide Wired;
    WiredCall(b, id);
    CallWired(b, id, b.calls[id].(phase := phase));
  }

  lemma PutCacheWired(b: Sys, user: string, balance: int, lost: bool)
    requires Wired(b)
    ensures Wired(PutCache(b, user, balance, lost))
  {
    hide Wired;
    CacheWired(b, b.cache[user := balance]);
  }

  lemma ReserveWired(b: Sys, id: string)
    requires Wired(b) && id in b.calls && b.calls[id].phase.Seen?
    ensures Wired(ReserveNow(b, id))
  {
    hide Wired, KeyFree, KeyRef;
    WiredCall(b, id);
    PhaseWired(b, id, Closed);
    var c := b.calls[id];
    var key := HoldKey(KeyRef(id, c.clientKey));
    if CanHold(b.db, c.user, c.hold, key) {
      var db := AfterHold(b.db, c.user, c.hold, id, key);
      DbWired(b, db, b.settled);
      CallWired(b.(db := db), id, c.(held := true, phase := HoldPlaced(b.db.balances[c.user] - c.hold)));
    }
  }

  lemma NoteWired(b: Sys, id: string)
    requires Wired(b) && id in b.calls && b.calls[id].phase.Published?
    ensures Wired(SinceHold(b, id, Note))
  {
    hide Wired;
    WiredCall(b, id);
    PhaseWired(b, id, Closed);
    var db := InsertLog(b.db, id, b.calls[id].user, b.calls[id].hold);
    DbWired(b, db, b.settled);
    PhaseWired(b.(db := db), id, Logged);
  }

  lemma OpenWired(b: Sys, id: string, expires: int)
    requires Wired(b) && id in b.calls && b.calls[id].phase.Logged?
    ensures Wired(SinceHold(b, id, Open(expires)))
  {
    hide Wired;
    WiredCall(b, id);
    PhaseWired(b, id, Closed);
    var db := InsertSession(b.db, id, b.calls[id].user, b.calls[id].hold, expires);
    DbWired(b, db, b.settled);
    PhaseWired(b.(db := db), id, Forwarded);
  }

  lemma EmitWired(b: Sys, ev: Q.Event)
    requires Wired(b) && EventOk(b, ev)
    ensures Wired(b.(queue := Q.Emit(b.queue, ev)))
  {
    hide Wired, EventOk, FateOk;
    WiredQueue(b);
    Q.OpsKeepAccount(b.queue, ev, 0, Q.Dead);
    QueueWired(b, Q.Emit(b.queue, ev));
  }

  lemma AnswerWired(b: Sys, id: string, resp: Response, lost: bool)
    requires Wired(b) && id in b.calls && b.calls[id].phase.Forwarded?
    ensures Wired(SinceHold(b, id, Answer(resp, lost)))
  {
    hide Wired;
    WiredCall(b, id);
    PhaseWired(b, id, Answered(resp));
    EmitWired(SetPhase(b, id, Answered(resp)), EventOf(id, b.calls[id]));
  }

  lemma RememberWired(b: Sys, id: string, lost: bool)
    requires Wired(b) && id in b.calls && b.calls[id].phase.Answered?
    ensures Wired(SinceHold(b, id, Remember(lost)))
  {
    hide Wired, CacheKey;
    WiredCall(b, id);
    var c := b.calls[id];
    var next := SetPhase(b, id, Closed);
    PhaseWired(b, id, Closed);
    if c.clientKey != "" {
      ReplyWired(next, CacheKey(c.user, c.clientKey, c.path), Entry(c.phase.resp, b.now, id));
    }
  }

  lemma BeforeHoldWired(b: Sys, id: string, g: GatewayAct)
    requires Wired(b) && id in b.calls
    ensures Wired(BeforeHold(b, id, g))
  {
    hide Wired, CacheKey, LiveReply;
    WiredCall(b, id);
    var c := b.calls[id];
    match g
    case Lookup(_) =>
      if c.phase.Arrived? {
        PhaseWired(b, id, BeforeHold(b, id, g).calls[id].phase);
      }
    case ReadCache =>
      if c.phase.Admitted? {
        PhaseWired(b, id, BeforeHold(b, id, g).calls[id].phase);
      }
    case Fetch =>
      if c.phase.Missed? {
        PhaseWired(b, id, BeforeHold(b, id, g).calls[id].phase);
      }
    case Fill(lost) =>
      if c.phase.Fetched? {
        PhaseWired(b, id, Seen(c.phase.balance));
        PutCacheWired(SetPhase(b, id, Seen(c.phase.balance)), c.user, c.phase.balance, lost);
      }
    case _ =>
  }

  lemma SinceHoldWired(b: Sys, id: string, g: GatewayAct)
    requires Wired(b) && id in b.calls
    ensures Wired(SinceHold(b, id, g))
  {
    hide Wired, CacheKey, InsertLog, InsertSession, Q.Emit, EventOf;
    WiredCall(b, id);
    var c := b.calls[id];
    match g
    case Publish(lost) =>
      if c.phase.HoldPlaced? {
        PhaseWired(b, id, Published);
        PutCacheWired(SetPhase(b, id, Published), c.user, c.phase.left, lost);
      }
    case Note =>
      if c.phase.Published? {
        NoteWired(b, id);
      }
    case Open(expires) =>
      if c.phase.Logged? {
        OpenWired(b, id, expires);
      }
    case Answer(resp, lost) =>
      if c.phase.Forwarded? {
        AnswerWired(b, id, resp, lost);
      }
    case Remember(lost) =>
      if c.phase.Answered? {
        RememberWired(b, id, lost);
      }
    case _ =>
  }

  lemma GatewayWired(b: Sys, id: string, g: GatewayAct)
    requires Wired(b)
    ensures Wired(OnGateway(b, id, g))
  {
    hide Wired, BeforeHold, SinceHold, ReserveNow;
    if g.Arrive? {
      if id !in b.calls && g.hold > 0 {
        NewCallWired(b, id, Call(g.user, g.clientKey, g.path, g.hold, false, Arrived));
      }
    } else if id in b.calls {
      BeforeHoldWired(b, id, g);
      SinceHoldWired(b, id, g);
      PhaseWired(b, id, Closed);
      if b.calls[id].phase.Seen? {
        ReserveWired(b, id);
      }
    }
  }

  // ----- the worker keeps it -----

  lemma TakeWired(b: Sys, j: nat)
    requires Wired(b) && b.queue.cursor < |b.queue.stream|
    ensures Wired(b.(queue := Q.Deliver(b.queue), jobs := b.jobs[j := Job(b.queue.cursor, Working)]))
  {
    hide Wired, EventOk, FateOk;
    WiredQueue(b);
    Q.OpsKeepAccount(b.queue, b.queue.stream[b.queue.cursor], 0, Q.Dead);
    QueueWired(b, Q.Deliver(b.queue));
    JobWired(b.(queue := Q.Deliver(b.queue)), j, Job(b.queue.cursor, Working));
  }

  lemma ClaimWired(b: Sys, j: nat, m: nat)
    requires Wired(b) && m in b.queue.pending
    ensures Wired(b.(queue := Q.Reclaim(b.queue, m), jobs := b.jobs[j := Job(m, Working)]))
  {
    hide Wired, EventOk, FateOk;
    WiredQueue(b);
    Q.OpsKeepAccount(b.queue, b.queue.stream[m], m, Q.Dead);
    QueueWired(b, Q.Reclaim(b.queue, m));
    JobWired(b.(queue := Q.Reclaim(b.queue, m)), j, Job(m, Working));
  }

  lemma JobPhaseWired(b: Sys, j: nat, phase: JobPhase)
    requires Wired(b) && j in b.jobs && b.jobs[j].msg < |b.queue.stream|
    requires phase.Committed? || phase.Deleted? || phase.Read? || phase.Written? ==> b.queue.stream[b.jobs[j].msg].id in b.settled
    requires phase.Copied? && phase.kept ==> b.queue.stream[b.jobs[j].msg] in b.queue.dead
    ensures Wired(SetJob(b, j, phase))
  {
    hide Wired, EventOk;
    WiredJob(b, j);
    JobWired(b, j, b.jobs[j].(phase := phase));
  }

  lemma AttemptWired(b: Sys, j: nat, price: nat, status: Status)
    requires Wired(b) && j in b.jobs && b.jobs[j].msg < |b.queue.stream|
    ensures Wired(AttemptNow(b, j, price, status))
  {
    hide Wired, KeyFree, CanSettle, KeyRef;
    var ev := b.queue.stream[b.jobs[j].msg];
    var (capture, release) := CaptureRelease(ev.hold, price);
    if CanSettle(b.db, ev.user, ev.id, capture, release, ev.clientKey) {
      CanSettleUser(b.db, ev.user, ev.id, capture, release, ev.clientKey);
      var db := AfterSettle(b.db, ev.user, ev.id, capture, release, status, ev.clientKey);
      SettleFrame(b.db, ev.user, ev.id, capture, release, status, ev.clientKey);
      var next := b.(db := db, settled := b.settled + {ev.id});
      DbWired(b, db, b.settled + {ev.id});
      JobPhaseWired(next, j, Committed);
    } else {
      JobPhaseWired(b, j, Failing);
    }
  }

  lemma AckWired(b: Sys, j: nat, fate: Q.Fate)
    requires Wired(b) && j in b.jobs
    requires fate == Q.Settled ==> b.jobs[j].phase.Written?
    requires fate == Q.Dead ==> b.jobs[j].phase == Copied(true)
    ensures Wired(b.(queue := Q.Ack(b.queue, b.jobs[j].msg, fate)))
  {
    hide Wired, EventOk;
    WiredJob(b, j);
    WiredQueue(b);
    var m := b.jobs[j].msg;
    Q.OpsKeepAccount(b.queue, b.queue.stream[m], m, fate);
    QueueWired(b, Q.Ack(b.queue, m, fate));
  }

  lemma BuryWired(b: Sys, j: nat)
    requires Wired(b) && j in b.jobs && b.jobs[j].msg < |b.queue.stream|
    ensures Wired(b.(queue := Q.Bury(b.queue, b.queue.stream[b.jobs[j].msg])))
  {
    hide Wired, EventOk, FateOk;
    WiredJob(b, j);
    WiredQueue(b);
    var m := b.jobs[j].msg;
    Q.OpsKeepAccount(b.queue, b.queue.stream[m], m, Q.Dead);
    QueueWired(b, Q.Bury(b.queue, b.queue.stream[m]));
  }

  lemma WorkWired(b: Sys, j: nat, w: JobAct, maxRetries: int)
    requires Wired(b)
    ensures Wired(OnWork(b, j, w, maxRetries))
  {
    hide Wired, EventOk, AttemptNow, Q.Bury, Q.Ack, Q.Deliver, Q.Reclaim;
    if w.Take? {
      if j !in b.jobs && b.queue.cursor < |b.queue.stream| {
        TakeWired(b, j);
      }
    } else if w.Claim? {
      if j !in b.jobs && w.msg in b.queue.pending {
        ClaimWired(b, j, w.msg);
      }
    } else if j in b.jobs && b.jobs[j].msg < |b.queue.stream| {
      WiredJob(b, j);
      var m := b.jobs[j].msg;
      var ev := b.queue.stream[m];
      var phase := b.jobs[j].phase;
      match w
      case Attempt(price, status) =>
        if price == None {
          JobPhaseWired(b, j, Failing);
        } else {
          AttemptWired(b, j, price.value, status);
        }
      case Delete(lost) =>
        if phase.Committed? {
          var next := if lost then b else b.(db := DeleteSession(b.db, ev.id));
          DbWired(b, next.db, b.settled);
          JobPhaseWired(next, j, Deleted);
        }
      case ReadUser =>
        if phase.Deleted? {
          JobPhaseWired(b, j, OnWork(b, j, w, maxRetries).jobs[j].phase);
        }
      case WriteCache(lost) =>
        if phase.Read? {
          JobPhaseWired(b, j, Written);
          PutCacheWired(SetJob(b, j, Written), ev.user, phase.balance, lost);
        }
      case Acknowledge(lost) =>
        if phase.Written? {
          AckWired(b, j, Q.Settled);
          AckStream(b.queue, m, Q.Settled);
          JobPhaseWired(if lost then b else b.(queue := Q.Ack(b.queue, m, Q.Settled)), j, Ended);
        }
      case GiveUp(_, _) =>
        BuryWired(b, j);
        BuryStream(b.queue, ev);
        JobPhaseWired(b, j, Ended);
        JobPhaseWired(b, j, Copied(false));
        JobPhaseWired(b.(queue := Q.Bury(b.queue, ev)), j, Copied(true));
      case AckDead(lost) =>
        if phase.Copied? {
          var fate := if phase.kept then Q.Dead else Q.Lost;
          AckWired(b, j, fate);
          AckStream(b.queue, m, fate);
          JobPhaseWired(if lost then b else b.(queue := Q.Ack(b.queue, m, fate)), j, Ended);
        }
    }
  }

  lemma AckStream(q: Q.Stream, m: nat, fate: Q.Fate)
    ensures Q.Ack(q, m, fate).stream == q.stream
  {
  }

  lemma BuryStream(q: Q.Stream, ev: Q.Event)
    ensures Q.Bury(q, ev).stream == q.stream && ev in Q.Bury(q, ev).dead
  {
  }

  // ----- the sweeper and the rest keep it -----

  lemma SweepPhaseWired(b: Sys, j: nat, phase: SweepPhase)
    requires Wired(b) && j in b.sweeps
    requires phase.Got? ==> phase.hold == 0 || (b.sweeps[j].id in b.calls && phase.hold == b.calls[b.sweeps[j].id].hold)
    requires phase.Swept? ==> b.sweeps[j].id in b.settled
    ensures Wired(SetSweep(b, j, phase))
  {
    hide Wired;
    WiredSweep(b, j);
    SweepWired(b, j, b.sweeps[j].(phase := phase));
  }

  /** A listed session belongs to a call that holds, has a log, and records that call's hold. */
  lemma SessionHeld(b: Sys, id: string)
    requires Sound(Abs(b)) && id in b.db.sessions
    ensures id in b.calls && b.calls[id].held && id in b.db.logs && b.db.sessions[id].hold == b.calls[id].hold
  {
    hide Agrees, RowsShaped, HoldsRecorded;
    assert id in Abs(b).db.sessions;
  }

  lemma OnSweepWired(b: Sys, j: nat, p: SweepAct)
    requires Wired(b) && Sound(Abs(b))
    ensures Wired(OnSweep(b, j, p))
  {
    hide Wired, Sound, CanSettle, AfterSettle;
    if p.List? {
      if j !in b.sweeps && p.id in b.db.sessions && b.db.sessions[p.id].expires < b.now {
        SessionHeld(b, p.id);
        SweepWired(b, j, Sweep(p.id, Listed));
      }
    } else if j in b.sweeps {
      WiredSweep(b, j);
      var id := b.sweeps[j].id;
      var phase := b.sweeps[j].phase;
      match p
      case ReadSession(fault) =>
        if id in b.db.sessions {
          SessionHeld(b, id);
        }
        if phase.Listed? {
          SweepPhaseWired(b, j, OnSweep(b, j, p).sweeps[j].phase);
        }
      case SweepNow =>
        SweepPhaseWired(b, j, Over);
        var user := b.db.logs[id].user;
        if phase.Got? && CanSettle(b.db, user, id, 0, phase.hold, "") {
          CanSettleUser(b.db, user, id, 0, phase.hold, "");
          SettleFrame(b.db, user, id, 0, phase.hold, Failed, "");
          var next := b.(db := AfterSettle(b.db, user, id, 0, phase.hold, Failed, ""), settled := b.settled + {id});
          DbWired(b, next.db, next.settled);
          SweepPhaseWired(next, j, Swept);
        }
      case DeleteSwept =>
        var next := b.(db := DeleteSession(b.db, id));
        DbWired(b, next.db, b.settled);
        SweepPhaseWired(next, j, Over);
    }
  }

  lemma TickWired(b: Sys, seconds: nat)
    requires Wired(b)
    ensures Wired(b.(now := b.now + seconds))
  {
    hide EventOk, JobOk, SweepOk, FateOk, ReplyOk, Q.Accounted, CallOk;
    WiredStays(b, b.(now := b.now + seconds));
  }

  lemma ReplayWired(b: Sys, k: nat)
    requires Wired(b) && k < |b.queue.dead|
    ensures Wired(b.(queue := Q.Emit(b.queue, b.queue.dead[k])))
  {
    hide EventOk, JobOk, SweepOk, FateOk, ReplyOk, Q.Accounted, CallOk;
    EmitWired(b, b.queue.dead[k]);
  }

  lemma AuditWired(b: Sys, user: string, n: nat, k: nat, lost: bool)
    requires Wired(b)
    ensures Wired(OnAudit(b, user, n, k, lost))
  {
    hide Wired, LedgerSum;
    if n <= k <= |b.db.rows| {
      PutCacheWired(b, user, LedgerSum(b.db.rows[..n], user), lost);
    }
  }

  lemma DoWired(b: Sys, act: Act, maxRetries: int)
    requires Wired(b) && Sound(Abs(b))
    ensures Wired(Do(b, act, maxRetries))
  {
    hide Wired, OnGateway, OnWork, OnSweep, OnAudit, Q.Emit, CanDeposit, Sound;
    match act
    case Gateway(id, g) => GatewayWired(b, id, g);
    case Work(j, w) => WorkWired(b, j, w, maxRetries);
    case Sweeping(j, p) => OnSweepWired(b, j, p);
    case Replay(k) =>
      if k < |b.queue.dead| {
        ReplayWired(b, k);
      }
    case Tick(seconds) => TickWired(b, seconds);
    case Auditing(u, n, k, lost) => AuditWired(b, u, n, k, lost);
    case _ => DbWired(b, Do(b, act, maxRetries).db, b.settled);
  }
}
