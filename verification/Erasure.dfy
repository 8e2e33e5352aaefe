/**
 Erasing every cache write, emit, delivery and acknowledgement from any interleaved run leaves a
 run of the billing protocol with the same database, so everything proved there holds here.
 */
module Erasure {
  import opened Keys
  import opened Ledger
  import opened Billing
  import opened Outcomes
  import opened Settlement
  import opened Conservation
  import opened System
  import opened Simulation
  import Q = Queue

  lemma PhaseAbs(b: Sys, id: string, phase: Phase)
    requires id in b.calls
    ensures Abs(SetPhase(b, id, phase)) == Abs(b)
  {
    assert HeldRequests(SetPhase(b, id, phase).calls) == HeldRequests(b.calls);
  }

  lemma ReserveSim(b: Sys, id: string)
    requires Wired(b) && id in b.calls && b.calls[id].phase.Seen?
    ensures Abs(ReserveNow(b, id)) == Applied(Abs(b), Erase(b, Gateway(id, Reserve)))
  {
    hide Wired, KeyFree;
    WiredCall(b, id);
    PhaseAbs(b, id, Closed);
    var c := b.calls[id];
    var key := HoldKey(KeyRef(id, c.clientKey));
    if c.phase.balance >= c.hold && CanHold(b.db, c.user, c.hold, key) {
      assert HeldRequests(ReserveNow(b, id).calls) == HeldRequests(b.calls)[id := Request(c.user, c.clientKey, c.hold)];
    }
  }

  lemma NoteSim(b: Sys, id: string)
    requires Wired(b) && id in b.calls && b.calls[id].phase.Published?
    ensures Abs(SinceHold(b, id, Note)) == Applied(Abs(b), Erase(b, Gateway(id, Note)))
  {
    hide Wired;
    WiredCall(b, id);
    PhaseAbs(b, id, Closed);
    var c := b.calls[id];
    PhaseAbs(b.(db := InsertLog(b.db, id, c.user, c.hold)), id, Logged);
  }

  lemma OpenSim(b: Sys, id: string, expires: int)
    requires Wired(b) && id in b.calls && b.calls[id].phase.Logged?
    ensures Abs(SinceHold(b, id, Open(expires))) == Applied(Abs(b), Erase(b, Gateway(id, Open(expires))))
  {
    hide Wired;
    WiredCall(b, id);
    PhaseAbs(b, id, Closed);
    var c := b.calls[id];
    PhaseAbs(b.(db := InsertSession(b.db, id, c.user, c.hold, expires)), id, Forwarded);
  }

  lemma BeforeHoldAbs(b: Sys, id: string, g: GatewayAct)
    requires id in b.calls
    ensures Abs(BeforeHold(b, id, g)) == Abs(b)
  {
    hide CacheKey, LiveReply, Abs;
    var c := BeforeHold(b, id, g);
    PhaseAbs(b, id, c.calls[id].phase);
    SameAbs(SetPhase(b, id, c.calls[id].phase), c);
    SameAbs(b, c);
  }

  lemma SameAbs(b: Sys, c: Sys)
    ensures b.db == c.db && b.calls == c.calls && b.settled == c.settled ==> Abs(b) == Abs(c)
  {
  }

  lemma SinceHoldSim(b: Sys, id: string, g: GatewayAct)
    requires Wired(b) && id in b.calls && (g.Publish? || g.Note? || g.Open? || g.Answer? || g.Remember?)
    ensures Abs(SinceHold(b, id, g)) == Applied(Abs(b), Erase(b, Gateway(id, g)))
  {
    hide Wired, CacheKey, Abs, Apply, InsertLog, InsertSession, Q.Emit, EventOf;
    var phase := b.calls[id].phase;
    if g.Note? && phase.Published? {
      NoteSim(b, id);
    } else if g.Open? && phase.Logged? {
      OpenSim(b, id, g.expires);
    } else {
      var c := SinceHold(b, id, g);
      PhaseAbs(b, id, c.calls[id].phase);
      SameAbs(SetPhase(b, id, c.calls[id].phase), c);
      SameAbs(b, c);
    }
  }

  lemma GatewaySim(b: Sys, id: string, g: GatewayAct)
    requires Wired(b)
    ensures Abs(OnGateway(b, id, g)) == Applied(Abs(b), Erase(b, Gateway(id, g)))
  {
    hide Wired, Apply, BeforeHold, SinceHold, ReserveNow;
    if g.Arrive? {
      assert HeldRequests(OnGateway(b, id, g).calls) == HeldRequests(b.calls);
    } else if id in b.calls {
      BeforeHoldAbs(b, id, g);
      PhaseAbs(b, id, Closed);
      if g.Reserve? && b.calls[id].phase.Seen? {
        ReserveSim(b, id);
      } else if g.Publish? || g.Note? || g.Open? || g.Answer? || g.Remember? {
        SinceHoldSim(b, id, g);
      }
    }
  }

  /** The event's fields are those of the request that holds. */
  lemma AttemptSim(b: Sys, j: nat, price: nat, status: Status)
    requires Wired(b) && j in b.jobs && b.jobs[j].msg < |b.queue.stream|
    ensures Abs(AttemptNow(b, j, price, status)) == Apply(Abs(b), SettleUsage(b.queue.stream[b.jobs[j].msg].id, price, status))
  {
    hide Wired, CanSettle, AfterSettle;
    WiredJob(b, j);
    var ev := b.queue.stream[b.jobs[j].msg];
    var req := Abs(b).requests[ev.id];
    assert req == Request(ev.user, ev.clientKey, ev.hold);
  }

  lemma WorkSim(b: Sys, j: nat, w: JobAct, maxRetries: int)
    requires Wired(b)
    ensures Abs(OnWork(b, j, w, maxRetries)) == Applied(Abs(b), Erase(b, Work(j, w)))
  {
    hide Wired, AttemptNow, EventOk, Q.Ack, Q.Bury, Q.Deliver, Q.Reclaim;
    if j in b.jobs && b.jobs[j].msg < |b.queue.stream| {
      WiredJob(b, j);
      if w.Attempt? && b.jobs[j].phase.Working? && w.price.Some? {
        AttemptSim(b, j, w.price.value, w.status);
      }
    }
  }

  lemma OnSweepSim(b: Sys, j: nat, p: SweepAct)
    requires Wired(b)
    ensures Abs(OnSweep(b, j, p)) == Applied(Abs(b), Erase(b, Sweeping(j, p)))
  {
    hide Wired, CanSettle, AfterSettle;
    if j in b.sweeps {
      WiredSweep(b, j);
    }
  }

  lemma AuditAbs(b: Sys, user: string, n: nat, k: nat, lost: bool)
    ensures Abs(OnAudit(b, user, n, k, lost)) == Abs(b)
  {
    hide LedgerSum;
  }

  lemma DoSim(b: Sys, act: Act, maxRetries: int)
    requires Wired(b)
    ensures Abs(Do(b, act, maxRetries)) == Applied(Abs(b), Erase(b, act))
  {
    hide Wired, OnGateway, OnWork, OnSweep, OnAudit, CanDeposit, AfterDeposit, Reconciled, Q.Emit;
    match act
    case Gateway(id, g) => GatewaySim(b, id, g);
    case Work(j, w) => WorkSim(b, j, w, maxRetries);
    case Sweeping(j, p) => OnSweepSim(b, j, p);
    case Auditing(u, n, k, lost) => AuditAbs(b, u, n, k, lost);
    case _ =>
  }

  // ----- whole runs -----

  lemma StartWired()
    ensures Wired(START) && Abs(START) == INIT
  {
    assert HeldRequests(START.calls) == map[];
  }

  lemma {:induction false} PlayWired(acts: seq<Act>, maxRetries: int)
    ensures Wired(Play(acts, maxRetries))
    ensures Abs(Play(acts, maxRetries)) == Run(EraseAll(acts, maxRetries))
  {
    hide Wired, Abs, Do, Apply, Erase, Sound;
    if acts == [] {
      StartWired();
    } else {
      var front, last := acts[..|acts| - 1], acts[|acts| - 1];
      var b := Play(front, maxRetries);
      PlayWired(front, maxRetries);
      Reachable(EraseAll(front, maxRetries));
      DoWired(b, last, maxRetries);
      DoSim(b, last, maxRetries);
      if Erase(b, last).Some? {
        var before, step := EraseAll(front, maxRetries), Erase(b, last).value;
        assert (before + [step])[..|before|] == before;
      }
    }
  }

  /** Any interleaved run, erased, is a legal run of the protocol without caches and queues, and ends in
      the same database: the Redis balance can refuse a request but never changes what a transaction does. */
  lemma ErasedRun(acts: seq<Act>, maxRetries: int)
    ensures Run(EraseAll(acts, maxRetries)).db == Play(acts, maxRetries).db
    ensures Sound(Abs(Play(acts, maxRetries)))
  {
    PlayWired(acts, maxRetries);
    Reachable(EraseAll(acts, maxRetries));
  }

  /** The per-request outcome, for every call of every interleaved run. */
  lemma CallOutcome(acts: seq<Act>, maxRetries: int, id: string)
    requires id in Play(acts, maxRetries).calls && Play(acts, maxRetries).calls[id].held
    ensures var b := Play(acts, maxRetries);
            var h := b.calls[id].hold;
            var c := Captured(b.db.rows, id);
            var r := Released(b.db.rows, id);
            && 0 <= c <= h && 0 <= r <= 2 * h
            && (Outcomes.Outcome(h, c, r) || Outcomes.Outcome(h, c, r - h))
            && (b.calls[id].clientKey == "" ==> Outcomes.Outcome(h, c, r) && r <= h)
            && (r > h <==> Twice(b.db.rows, id, b.calls[id].clientKey))
  {
    hide Captured, Released, Held, ReleasedUnder;
    PlayWired(acts, maxRetries);
    var b := Play(acts, maxRetries);
    assert Abs(b).requests[id] == Request(b.calls[id].user, b.calls[id].clientKey, b.calls[id].hold);
    RequestOutcome(EraseAll(acts, maxRetries), id);
  }

  /** Conservation, for every user of every interleaved run. */
  lemma ServiceConserves(acts: seq<Act>, maxRetries: int, user: string)
    requires user in Play(acts, maxRetries).db.balances
    ensures var db := Play(acts, maxRetries).db;
            0 <= db.balances[user] == Deposited(db.rows, user) - SumOver(HoldIds(db.rows, user), Charges(db.rows))
  {
    hide Deposited, SumOver, HoldIds;
    ErasedRun(acts, maxRetries);
    Reachable(EraseAll(acts, maxRetries));
    BalanceIsDepositsLessCharges(EraseAll(acts, maxRetries), user);
  }

  /** Whatever a stale or lost cache said, an act lowers a balance only by a transaction of the cache-free protocol
      that the PostgreSQL balance covers: a hold, a settlement that captures more than it releases, or a
      negative deposit, for exactly that amount. */
  lemma NoHoldAboveBalance(acts: seq<Act>, act: Act, maxRetries: int, user: string)
    requires user in Play(acts, maxRetries).db.balances
    ensures var b := Play(acts, maxRetries);
            var t := Do(b, act, maxRetries);
            && user in t.db.balances && t.db.balances[user] >= 0
            && (t.db.balances[user] < b.db.balances[user] ==>
                  && Erase(b, act).Some?
                  && Debits(Abs(b), Erase(b, act).value, user, b.db.balances[user] - t.db.balances[user]))
  {
    hide Wired, Do, Play, Apply, Debits, Sound, Erase;
    PlayWired(acts, maxRetries);
    ErasedRun(acts, maxRetries);
    var b := Play(acts, maxRetries);
    DoSim(b, act, maxRetries);
    if Erase(b, act).Some? {
      EveryDebitIsCovered(Abs(b), Erase(b, act).value, user);
    } else {
      BalanceCovered(Abs(b), user);
    }
  }

  lemma BalanceCovered(s: Core, user: string)
    requires Sound(s) && user in s.db.balances
    ensures s.db.balances[user] >= 0
  {
  }

  /** Of all calls that carry one Idempotency-Key, at most one is ever past ApplyHold. */
  lemma OneForwardPerKey(acts: seq<Act>, maxRetries: int, x: string, y: string)
    requires x in Play(acts, maxRetries).calls && y in Play(acts, maxRetries).calls
    requires Play(acts, maxRetries).calls[x].held && Play(acts, maxRetries).calls[y].held
    requires Play(acts, maxRetries).calls[x].clientKey == Play(acts, maxRetries).calls[y].clientKey != ""
    ensures x == y
  {
    hide Sound;
    ErasedRun(acts, maxRetries);
    RefIdentifies(Abs(Play(acts, maxRetries)), x, y);
  }

  /** Every emitted event is, at any time, exactly one of: unread, pending, acknowledged after a settlement
      of its request committed, acknowledged after a copy went to the dead letters, or acknowledged after a copy of
      this very event failed.  It is gone, with its request neither settled nor among the dead letters, only in the
      last case. */
  lemma EventsConserved(acts: seq<Act>, maxRetries: int, m: nat)
    requires m < |Play(acts, maxRetries).queue.stream|
    ensures var b := Play(acts, maxRetries);
            var q := b.queue;
            && (m >= q.cursor <==> m !in q.pending && m !in q.acked)
            && !(m in q.pending && m in q.acked)
            && (m in q.acked && q.acked[m] == Q.Settled ==> q.stream[m].id in b.settled)
            && (m in q.acked && q.acked[m] == Q.Dead ==> q.stream[m] in q.dead)
            && (m in q.acked && q.acked[m] == Q.Lost ==> CopyFailed(acts, maxRetries, m))
            && (m in q.acked && q.stream[m].id !in b.settled && q.stream[m] !in q.dead ==>
                  q.acked[m] == Q.Lost && CopyFailed(acts, maxRetries, m))
            && q.stream[m].id in b.calls && q.stream[m] == EventOf(q.stream[m].id, b.calls[q.stream[m].id])
  {
    hide Play, EventOf, CopyFailed;
    PlayWired(acts, maxRetries);
    if !CopyFailed(acts, maxRetries, m) {
      PlayKeepsEvents(acts, maxRetries, m);
    }
    var b := Play(acts, maxRetries);
    assert EventOk(b, b.queue.stream[m]);
    if m in b.queue.acked {
      assert FateOk(b, m, b.queue.acked[m]);
    }
  }

  /** A worker handling message m gave it up and its copy to the dead letters failed. */
  ghost predicate PushLost(b: Sys, act: Act, m: nat) {
    act.Work? && act.w.GiveUp? && act.w.lost && act.job in b.jobs && b.jobs[act.job].msg == m
  }

  ghost predicate CopyFailed(acts: seq<Act>, maxRetries: int, m: nat) {
    exists i | 0 <= i < |acts| :: PushLost(Play(acts[..i], maxRetries), acts[i], m)
  }

  /** The message was not dropped, and no worker is about to drop it. */
  ghost predicate NotLost(b: Sys, m: nat) {
    && (forall j | j in b.jobs && b.jobs[j].msg == m :: b.jobs[j].phase != Copied(false))
    && (m in b.queue.acked ==> b.queue.acked[m] != Q.Lost)
  }

  lemma JobKeepsEvents(b: Sys, j: nat, phase: JobPhase, m: nat)
    requires NotLost(b, m) && j in b.jobs && (b.jobs[j].msg == m ==> phase != Copied(false))
    ensures NotLost(SetJob(b, j, phase), m)
  {
  }

  lemma NewJobKeepsEvents(b: Sys, q: Q.Stream, j: nat, job: Job, m: nat)
    requires NotLost(b, m) && q.acked == b.queue.acked && job.phase == Working
    ensures NotLost(b.(queue := q, jobs := b.jobs[j := job]), m)
  {
  }

  lemma AckKeepsEvents(b: Sys, k: nat, fate: Q.Fate, m: nat)
    requires NotLost(b, m) && (k == m ==> fate != Q.Lost)
    ensures NotLost(b.(queue := Q.Ack(b.queue, k, fate)), m)
  {
  }

  lemma WorkKeepsEvents(b: Sys, j: nat, w: JobAct, maxRetries: int, m: nat)
    requires NotLost(b, m) && !PushLost(b, Work(j, w), m)
    ensures NotLost(OnWork(b, j, w, maxRetries), m)
  {
    hide NotLost, AttemptNow, DeleteSession, SetJob, PutCache, Q.Bury, Q.Ack, Q.Deliver, Q.Reclaim, Q.Deliveries;
    QueueKeepsAcked(b.queue, if w.Claim? then w.msg else 0);
    if w.Take? {
      NewJobKeepsEvents(b, Q.Deliver(b.queue), j, Job(b.queue.cursor, Working), m);
    } else if w.Claim? {
      NewJobKeepsEvents(b, Q.Reclaim(b.queue, w.msg), j, Job(w.msg, Working), m);
    } else if j in b.jobs && b.jobs[j].msg < |b.queue.stream| {
      var k, phase := b.jobs[j].msg, b.jobs[j].phase;
      var ev := b.queue.stream[k];
      JobKeepsEvents(b, j, Ended, m);
      match w
      case Attempt(price, status) =>
        JobKeepsEvents(b, j, Failing, m);
        if price.Some? {
          AttemptKeepsEvents(b, j, price.value, status, m);
        }
      case Delete(lost) =>
        var next := if lost then b else b.(db := DeleteSession(b.db, ev.id));
        SameEvents(b, next, m);
        JobKeepsEvents(next, j, Deleted, m);
      case ReadUser =>
        JobKeepsEvents(b, j, Written, m);
        if ev.user in b.db.balances {
          JobKeepsEvents(b, j, Read(b.db.balances[ev.user]), m);
        }
      case WriteCache(lost) =>
        if phase.Read? {
          JobKeepsEvents(b, j, Written, m);
          CacheKeepsEvents(SetJob(b, j, Written), ev.user, phase.balance, lost, m);
        }
      case Acknowledge(lost) =>
        AckKeepsEvents(b, k, Q.Settled, m);
        JobKeepsEvents(b.(queue := Q.Ack(b.queue, k, Q.Settled)), j, Ended, m);
      case GiveUp(fault, lost) =>
        var next := if lost then b else b.(queue := Q.Bury(b.queue, ev));
        SameEvents(b, next, m);
        JobKeepsEvents(next, j, Copied(!lost), m);
      case AckDead(lost) =>
        if phase.Copied? {
          var fate := if phase.kept then Q.Dead else Q.Lost;
          NoDropPending(b, j, m);
          AckKeepsEvents(b, k, fate, m);
          JobKeepsEvents(b.(queue := Q.Ack(b.queue, k, fate)), j, Ended, m);
        }
    }
  }

  lemma NoDropPending(b: Sys, j: nat, m: nat)
    requires NotLost(b, m) && j in b.jobs
    ensures b.jobs[j].msg == m ==> b.jobs[j].phase != Copied(false)
  {
  }

  lemma CacheKeepsEvents(b: Sys, user: string, balance: int, lost: bool, m: nat)
    requires NotLost(b, m)
    ensures NotLost(PutCache(b, user, balance, lost), m)
  {
  }

  lemma QueueKeepsAcked(q: Q.Stream, m: nat)
    ensures Q.Deliver(q).acked == Q.Reclaim(q, m).acked == q.acked
    ensures forall ev :: Q.Bury(q, ev).acked == q.acked
  {
  }

  lemma AttemptKeepsEvents(b: Sys, j: nat, price: nat, status: Status, m: nat)
    requires NotLost(b, m) && j in b.jobs && b.jobs[j].msg < |b.queue.stream|
    ensures NotLost(AttemptNow(b, j, price, status), m)
  {
    hide CanSettle, AfterSettle, CaptureRelease;
  }

  lemma DoKeepsEvents(b: Sys, act: Act, maxRetries: int, m: nat)
    requires NotLost(b, m) && !PushLost(b, act, m)
    ensures NotLost(Do(b, act, maxRetries), m)
  {
    hide NotLost;
    if act.Work? {
      WorkKeepsEvents(b, act.job, act.w, maxRetries, m);
    } else {
      OthersKeepJobs(b, act, maxRetries);
      SameEvents(b, Do(b, act, maxRetries), m);
    }
  }

  lemma SameEvents(b: Sys, c: Sys, m: nat)
    requires NotLost(b, m) && c.jobs == b.jobs && c.queue.acked == b.queue.acked
    ensures NotLost(c, m)
  {
  }

  /** A sweep touches the database and its own progress only. */
  lemma SweepKeepsRest(b: Sys, j: nat, p: SweepAct)
    ensures var c := OnSweep(b, j, p);
            && c.queue == b.queue && c.jobs == b.jobs && c.cache == b.cache
            && c.calls == b.calls && c.replies == b.replies
  {
    hide CanSettle, AfterSettle, DeleteSession;
  }

  /** An audit touches the cache only. */
  lemma AuditKeepsRest(b: Sys, user: string, n: nat, k: nat, lost: bool)
    ensures var c := OnAudit(b, user, n, k, lost);
            c.queue == b.queue && c.jobs == b.jobs && c.calls == b.calls && c.replies == b.replies && c.db == b.db
  {
    hide LedgerSum;
  }

  lemma OthersKeepJobs(b: Sys, act: Act, maxRetries: int)
    requires !act.Work?
    ensures var c := Do(b, act, maxRetries); c.jobs == b.jobs && c.queue.acked == b.queue.acked
  {
    hide CanDeposit, AfterDeposit, Reconciled, OnWork, OnGateway, OnSweep, OnAudit;
    match act
    case Gateway(id, g) => GatewayKeepsJobs(b, id, g);
    case Sweeping(j, p) => SweepKeepsRest(b, j, p);
    case Auditing(u, n, k, lost) => AuditKeepsRest(b, u, n, k, lost);
    case _ =>
  }

  lemma GatewayKeepsJobs(b: Sys, id: string, g: GatewayAct)
    ensures var c := OnGateway(b, id, g); c.jobs == b.jobs && c.queue.acked == b.queue.acked
  {
    hide CanHold, AfterHold, CacheKey, LiveReply, InsertLog, InsertSession, EventOf, KeyRef, BeforeHold, SinceHold;
    if id in b.calls {
      BeforeHoldKeepsJobs(b, id, g);
      SinceHoldKeepsJobs(b, id, g);
    }
  }

  lemma BeforeHoldKeepsJobs(b: Sys, id: string, g: GatewayAct)
    requires id in b.calls
    ensures var c := BeforeHold(b, id, g); c.jobs == b.jobs && c.queue == b.queue
  {
    hide CacheKey, LiveReply;
  }

  lemma SinceHoldKeepsJobs(b: Sys, id: string, g: GatewayAct)
    requires id in b.calls
    ensures var c := SinceHold(b, id, g); c.jobs == b.jobs && c.queue.acked == b.queue.acked
  {
    hide InsertLog, InsertSession, CacheKey, EventOf, Q.Emit;
    assert Q.Emit(b.queue, EventOf(id, b.calls[id])).acked == b.queue.acked by {
      EmitKeepsAcked(b.queue, EventOf(id, b.calls[id]));
    }
  }

  lemma EmitKeepsAcked(q: Q.Stream, ev: Q.Event)
    ensures Q.Emit(q, ev).acked == q.acked
  {
  }

  lemma StartKeepsEvents(m: nat)
    ensures NotLost(START, m)
  {
  }

  lemma {:induction false} PlayKeepsEvents(acts: seq<Act>, maxRetries: int, m: nat)
    requires !CopyFailed(acts, maxRetries, m)
    ensures NotLost(Play(acts, maxRetries), m)
  {
    hide NotLost, Do, PushLost;
    if acts == [] {
      StartKeepsEvents(m);
    } else {
      var n := |acts| - 1;
      var front := acts[..n];
      forall i | 0 <= i < |front| ensures !PushLost(Play(front[..i], maxRetries), front[i], m) {
        assert front[..i] == acts[..i] && front[i] == acts[i];
      }
      PlayKeepsEvents(front, maxRetries, m);
      DoKeepsEvents(Play(front, maxRetries), acts[n], maxRetries, m);
    }
  }
}
