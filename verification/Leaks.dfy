/**
 Which holds leak.

 ApplyHold commits before the usage log and the session are written, and only a listed session or an
 emitted event can settle a hold.  So a call that stops before its session is opened keeps its
 user's credits for good.
 */
module Leaks {
  import opened Ledger
  import opened Billing
  import opened Settlement
  import opened System
  import opened Simulation
  import opened Erasure
  import opened Replies
  import opened SerialCache
  import opened CacheHistory
  import Q = Queue

  /** The act that inserts the call's session row. */
  ghost predicate Opens(b: Sys, act: Act, id: string) {
    act.Gateway? && act.id == id && act.g.Open? && id in b.calls && b.calls[id].phase.Logged?
  }

  ghost predicate Opened(acts: seq<Act>, maxRetries: int, id: string) {
    exists i | 0 <= i < |acts| :: Opens(Play(acts[..i], maxRetries), acts[i], id)
  }

  lemma OpenedSnoc(acts: seq<Act>, maxRetries: int, id: string)
    requires acts != []
    ensures var n := |acts| - 1;
            Opened(acts, maxRetries, id) <==>
              Opened(acts[..n], maxRetries, id) || Opens(Play(acts[..n], maxRetries), acts[n], id)
  {
    hide Opens, Play;
    var n := |acts| - 1;
    var front := acts[..n];
    if Opened(front, maxRetries, id) {
      var i :| 0 <= i < |front| && Opens(Play(front[..i], maxRetries), front[i], id);
      assert front[..i] == acts[..i] && front[i] == acts[i];
    }
    if Opened(acts, maxRetries, id) {
      var i :| 0 <= i < |acts| && Opens(Play(acts[..i], maxRetries), acts[i], id);
      if i < n {
        assert front[..i] == acts[..i] && front[i] == acts[i];
      }
    }
  }

  // ----- a call that was not opened leaves no trace a settlement could start from -----

  ghost predicate NoEvent(evs: seq<Q.Event>, id: string) {
    forall i | 0 <= i < |evs| :: evs[i].id != id
  }

  ghost predicate NoSweep(sweeps: map<nat, Sweep>, id: string) {
    forall j | j in sweeps :: sweeps[j].id != id
  }

  ghost predicate Unopened(b: Sys, id: string) {
    && id !in b.settled && id !in b.db.sessions
    && NoEvent(b.queue.stream, id) && NoEvent(b.queue.dead, id) && NoSweep(b.sweeps, id)
    && (id in b.calls ==> !b.calls[id].phase.Forwarded? && !b.calls[id].phase.Answered?)
  }

  lemma BeforeHoldUnopened(b: Sys, who: string, g: GatewayAct, id: string)
    requires Unopened(b, id) && who in b.calls
    ensures Unopened(BeforeHold(b, who, g), id)
  {
    hide Unopened, CacheKey, SetPhase, PutCache;
    var c := b.calls[who];
    PhaseUnopened(b, who, Admitted, id);
    PhaseUnopened(b, who, Missed, id);
    PhaseUnopened(b, who, Closed, id);
    match g
    case Lookup(_) =>
      var key := CacheKey(c.user, c.clientKey, c.path);
      if LiveReply(b, key) {
        PhaseUnopened(b, who, Replayed(b.replies[key].resp), id);
      }
    case ReadCache =>
      if c.user in b.cache {
        PhaseUnopened(b, who, Seen(b.cache[c.user]), id);
      }
    case Fetch =>
      if c.user in b.db.balances {
        PhaseUnopened(b, who, Fetched(b.db.balances[c.user]), id);
      }
    case Fill(lost) =>
      if c.phase.Fetched? {
        PhaseUnopened(b, who, Seen(c.phase.balance), id);
        PutUnopened(SetPhase(b, who, Seen(c.phase.balance)), c.user, c.phase.balance, lost, id);
      }
    case _ =>
  }

  lemma EmitUnopened(q: Q.Stream, ev: Q.Event, id: string)
    requires NoEvent(q.stream, id) && NoEvent(q.dead, id) && ev.id != id
    ensures NoEvent(Q.Emit(q, ev).stream, id) && NoEvent(Q.Emit(q, ev).dead, id)
    ensures NoEvent(Q.Bury(q, ev).stream, id) && NoEvent(Q.Bury(q, ev).dead, id)
  {
  }

  lemma PhaseUnopened(b: Sys, who: string, p: Phase, id: string)
    requires Unopened(b, id) && who in b.calls && (who == id ==> !p.Forwarded? && !p.Answered?)
    ensures Unopened(SetPhase(b, who, p), id)
  {
  }

  lemma DbUnopened(b: Sys, db: Db, id: string)
    requires Unopened(b, id) && id !in db.sessions
    ensures Unopened(b.(db := db), id)
  {
  }

  lemma EmitsUnopened(b: Sys, ev: Q.Event, id: string)
    requires Unopened(b, id) && ev.id != id
    ensures Unopened(b.(queue := Q.Emit(b.queue, ev)), id)
  {
    hide NoEvent, NoSweep, Q.Emit;
    EmitUnopened(b.queue, ev, id);
  }

  lemma RepliesUnopened(b: Sys, replies: map<string, Entry>, id: string)
    requires Unopened(b, id)
    ensures Unopened(b.(replies := replies), id)
  {
  }

  lemma SinceHoldUnopened(b: Sys, who: string, g: GatewayAct, id: string)
    requires Unopened(b, id) && who in b.calls && !Opens(b, Gateway(who, g), id)
    ensures Unopened(SinceHold(b, who, g), id)
  {
    hide Unopened, CacheKey, Q.Emit, SetPhase, PutCache;
    var c := b.calls[who];
    PhaseUnopened(b, who, Closed, id);
    NotAnswering(b, id);
    match g
    case Publish(lost) =>
      if c.phase.HoldPlaced? {
        PhaseUnopened(b, who, Published, id);
        PutUnopened(SetPhase(b, who, Published), c.user, c.phase.left, lost, id);
      }
    case Note =>
      DbUnopened(b, InsertLog(b.db, who, c.user, c.hold), id);
      PhaseUnopened(b.(db := InsertLog(b.db, who, c.user, c.hold)), who, Logged, id);
    case Open(expires) =>
      if c.phase.Logged? {
        DbUnopened(b, InsertSession(b.db, who, c.user, c.hold, expires), id);
        PhaseUnopened(b.(db := InsertSession(b.db, who, c.user, c.hold, expires)), who, Forwarded, id);
      }
    case Answer(resp, lost) =>
      if c.phase.Forwarded? {
        EmitsUnopened(b, EventOf(who, c), id);
        PhaseUnopened(b, who, Answered(resp), id);
        PhaseUnopened(b.(queue := Q.Emit(b.queue, EventOf(who, c))), who, Answered(resp), id);
        PhaseThenEmit(b, who, Answered(resp), Q.Emit(b.queue, EventOf(who, c)));
      }
    case Remember(lost) =>
      if c.phase.Answered? {
        RepliesUnopened(SetPhase(b, who, Closed),
                        b.replies[CacheKey(c.user, c.clientKey, c.path) := Entry(c.phase.resp, b.now, who)], id);
      }
    case _ =>
  }

  lemma PhaseThenEmit(b: Sys, who: string, p: Phase, q: Q.Stream)
    requires who in b.calls
    ensures SetPhase(b, who, p).(queue := q) == SetPhase(b.(queue := q), who, p)
  {
  }

  lemma NotAnswering(b: Sys, id: string)
    requires Unopened(b, id)
    ensures id !in b.db.sessions
    ensures id in b.calls ==> !b.calls[id].phase.Forwarded? && !b.calls[id].phase.Answered?
  {
  }

  lemma ReserveUnopened(b: Sys, who: string, id: string)
    requires Unopened(b, id) && who in b.calls
    ensures Unopened(ReserveNow(b, who), id)
  {
    hide NoEvent, NoSweep, KeyFree, KeyRef;
  }

  lemma GatewayUnopened(b: Sys, who: string, g: GatewayAct, id: string)
    requires Unopened(b, id) && !Opens(b, Gateway(who, g), id)
    ensures Unopened(OnGateway(b, who, g), id)
  {
    hide NoEvent, NoSweep, BeforeHold, SinceHold, ReserveNow;
    if who in b.calls {
      BeforeHoldUnopened(b, who, g, id);
      SinceHoldUnopened(b, who, g, id);
      ReserveUnopened(b, who, id);
    }
  }

  lemma JobUnopened(b: Sys, j: nat, phase: JobPhase, id: string)
    requires Unopened(b, id) && j in b.jobs
    ensures Unopened(SetJob(b, j, phase), id)
  {
  }

  lemma AttemptUnopened(b: Sys, j: nat, price: nat, status: Status, id: string)
    requires Unopened(b, id) && j in b.jobs && b.jobs[j].msg < |b.queue.stream|
    ensures Unopened(AttemptNow(b, j, price, status), id)
  {
    hide CanSettle, AfterSettle, CaptureRelease, NoSweep;
    var ev := b.queue.stream[b.jobs[j].msg];
    var (capture, release) := CaptureRelease(ev.hold, price);
    if CanSettle(b.db, ev.user, ev.id, capture, release, ev.clientKey) {
      CanSettleUser(b.db, ev.user, ev.id, capture, release, ev.clientKey);
      SettleFrame(b.db, ev.user, ev.id, capture, release, status, ev.clientKey);
    }
  }

  lemma SameUnopened(b: Sys, c: Sys, id: string)
    requires Unopened(b, id) && c.settled == b.settled && c.calls == b.calls && c.sweeps == b.sweeps
    requires c.db.sessions.Keys <= b.db.sessions.Keys
    requires c.queue.stream == b.queue.stream && NoEvent(c.queue.dead, id)
    ensures Unopened(c, id)
  {
  }

  lemma QueueStreams(q: Q.Stream, m: nat, fate: Q.Fate)
    ensures Q.Ack(q, m, fate).stream == Q.Deliver(q).stream == Q.Reclaim(q, m).stream == q.stream
    ensures Q.Ack(q, m, fate).dead == Q.Deliver(q).dead == Q.Reclaim(q, m).dead == q.dead
  {
  }

  lemma PutUnopened(b: Sys, user: string, balance: int, lost: bool, id: string)
    requires Unopened(b, id)
    ensures Unopened(PutCache(b, user, balance, lost), id)
  {
  }

  lemma WorkUnopened(b: Sys, j: nat, w: JobAct, maxRetries: int, id: string)
    requires Unopened(b, id)
    ensures Unopened(OnWork(b, j, w, maxRetries), id)
  {
    hide Unopened, NoSweep, AttemptNow, SetJob, PutCache, Q.Bury, Q.Ack, Q.Deliver, Q.Reclaim, Q.Deliveries;
    UnopenedEvents(b, id);
    if w.Take? {
      QueueStreams(b.queue, 0, Q.Dead);
      SameUnopened(b, b.(queue := Q.Deliver(b.queue), jobs := b.jobs[j := Job(b.queue.cursor, Working)]), id);
    } else if w.Claim? {
      QueueStreams(b.queue, w.msg, Q.Dead);
      SameUnopened(b, b.(queue := Q.Reclaim(b.queue, w.msg), jobs := b.jobs[j := Job(w.msg, Working)]), id);
    } else if j in b.jobs && b.jobs[j].msg < |b.queue.stream| {
      var k, phase := b.jobs[j].msg, b.jobs[j].phase;
      var ev := b.queue.stream[k];
      JobUnopened(b, j, Ended, id);
      match w
      case Attempt(price, status) =>
        JobUnopened(b, j, Failing, id);
        if price.Some? {
          AttemptUnopened(b, j, price.value, status, id);
        }
      case Delete(lost) =>
        var next := if lost then b else b.(db := DeleteSession(b.db, ev.id));
        SameUnopened(b, next, id);
        JobUnopened(next, j, Deleted, id);
      case ReadUser =>
        JobUnopened(b, j, Written, id);
        if ev.user in b.db.balances {
          JobUnopened(b, j, Read(b.db.balances[ev.user]), id);
        }
      case WriteCache(lost) =>
        if phase.Read? {
          JobUnopened(b, j, Written, id);
          PutUnopened(SetJob(b, j, Written), ev.user, phase.balance, lost, id);
        }
      case Acknowledge(lost) => AckUnopened(b, j, Q.Settled, id);
      case GiveUp(fault, lost) =>
        EmitUnopened(b.queue, ev, id);
        BuryStream(b.queue, ev);
        var next := if lost then b else b.(queue := Q.Bury(b.queue, ev));
        SameUnopened(b, next, id);
        JobUnopened(next, j, Copied(!lost), id);
      case AckDead(lost) =>
        if phase.Copied? {
          AckUnopened(b, j, if phase.kept then Q.Dead else Q.Lost, id);
        }
    }
  }

  lemma UnopenedEvents(b: Sys, id: string)
    requires Unopened(b, id)
    ensures NoEvent(b.queue.stream, id) && NoEvent(b.queue.dead, id)
  {
  }

  lemma AckUnopened(b: Sys, j: nat, fate: Q.Fate, id: string)
    requires Unopened(b, id) && j in b.jobs
    ensures Unopened(SetJob(b.(queue := Q.Ack(b.queue, b.jobs[j].msg, fate)), j, Ended), id)
  {
    hide Q.Ack, NoEvent, NoSweep;
    QueueStreams(b.queue, b.jobs[j].msg, fate);
  }

  lemma SweepUnopened(b: Sys, j: nat, p: SweepAct, id: string)
    requires Unopened(b, id)
    ensures Unopened(OnSweep(b, j, p), id)
  {
    hide CanSettle, AfterSettle, NoEvent;
    if j in b.sweeps && p.SweepNow? && b.sweeps[j].phase.Got? {
      var x, hold := b.sweeps[j].id, b.sweeps[j].phase.hold;
      if x in b.db.logs && CanSettle(b.db, b.db.logs[x].user, x, 0, hold, "") {
        CanSettleUser(b.db, b.db.logs[x].user, x, 0, hold, "");
        SettleFrame(b.db, b.db.logs[x].user, x, 0, hold, Failed, "");
      }
    }
  }

  lemma DoUnopened(b: Sys, act: Act, maxRetries: int, id: string)
    requires Unopened(b, id) && !Opens(b, act, id)
    ensures Unopened(Do(b, act, maxRetries), id)
  {
    hide NoEvent, NoSweep, OnGateway, OnWork, OnSweep, Q.Emit, CanDeposit, LedgerSum;
    match act
    case Gateway(who, g) => GatewayUnopened(b, who, g, id);
    case Work(j, w) => WorkUnopened(b, j, w, maxRetries, id);
    case Sweeping(j, p) => SweepUnopened(b, j, p, id);
    case Replay(k) =>
      if k < |b.queue.dead| {
        NotDead(b.queue.dead, k, id);
        EmitUnopened(b.queue, b.queue.dead[k], id);
      }
    case _ =>
  }

  lemma NotDead(evs: seq<Q.Event>, k: nat, id: string)
    requires NoEvent(evs, id) && k < |evs|
    ensures evs[k].id != id
  {
  }

  lemma {:induction false} PlayUnopened(acts: seq<Act>, maxRetries: int, id: string)
    requires !Opened(acts, maxRetries, id)
    ensures Unopened(Play(acts, maxRetries), id)
  {
    hide Unopened, Do, Opens, Opened;
    if acts == [] {
      StartUnopened(id);
    } else {
      var n := |acts| - 1;
      OpenedSnoc(acts, maxRetries, id);
      PlayUnopened(acts[..n], maxRetries, id);
      DoUnopened(Play(acts[..n], maxRetries), acts[n], maxRetries, id);
    }
  }

  lemma StartUnopened(id: string)
    ensures Unopened(START, id)
  {
  }

  // ----- a call that was opened stays listed until it is settled -----

  lemma OpenLists(b: Sys, act: Act, maxRetries: int, id: string)
    requires Good(b) && Opens(b, act, id)
    ensures id in Do(b, act, maxRetries).db.sessions
  {
    hide BeforeHold, ReserveNow, CacheKey, Q.Emit, EventOf, Agrees, RowsShaped, HoldsRecorded;
    WiredCall(b, id);
    assert id in Abs(b).requests;
  }

  lemma DoKeepsListed(b: Sys, act: Act, maxRetries: int, id: string)
    requires Good(b) && id in b.db.sessions && id !in Do(b, act, maxRetries).settled
    ensures id in Do(b, act, maxRetries).db.sessions
  {
    hide Wired, Sound, Do, Apply, Erase;
    DoSim(b, act, maxRetries);
    if Erase(b, act).Some? {
      ApplyKeepsListed(Abs(b), Erase(b, act).value, id);
    }
  }

  lemma SettledGrows(b: Sys, act: Act, maxRetries: int)
    requires Good(b)
    ensures b.settled <= Do(b, act, maxRetries).settled
  {
    hide Wired, Sound, Do, Apply, Erase;
    DoSim(b, act, maxRetries);
    if Erase(b, act).Some? {
      ApplyLater(Abs(b), Erase(b, act).value);
    }
  }

  lemma {:induction false} PlayListed(acts: seq<Act>, maxRetries: int, id: string)
    requires Opened(acts, maxRetries, id) && id !in Play(acts, maxRetries).settled
    ensures id in Play(acts, maxRetries).db.sessions
  {
    hide Good, Do, Opens, AllPast, Opened;
    if acts == [] {
      NeverOpened(maxRetries, id);
    } else {
      var n := |acts| - 1;
      var b := Play(acts[..n], maxRetries);
      PlayPast(acts[..n], maxRetries);
      OpenedSnoc(acts, maxRetries, id);
      SettledGrows(b, acts[n], maxRetries);
      if Opens(b, acts[n], id) {
        OpenLists(b, acts[n], maxRetries, id);
      } else {
        PlayListed(acts[..n], maxRetries, id);
        DoKeepsListed(b, acts[n], maxRetries, id);
      }
    }
  }

  lemma NeverOpened(maxRetries: int, id: string)
    ensures !Opened([], maxRetries, id)
  {
  }

  // ----- the theorems -----

  /** Over every run, an unsettled call is listed for the sweeper exactly when its session was opened; a call that was
      never opened is never settled, has no event, and nothing of its hold was captured or released. */
  lemma UnlistedIffUnopened(acts: seq<Act>, maxRetries: int, id: string)
    ensures var b := Play(acts, maxRetries);
            && (id !in b.settled ==> (id in b.db.sessions <==> Opened(acts, maxRetries, id)))
            && (!Opened(acts, maxRetries, id) ==>
                  id !in b.settled && !HasSettlementRow(b.db.rows, id) && NoEvent(b.queue.stream, id))
  {
    hide Opened, HasSettlementRow, Play, Run, EraseAll;
    if Opened(acts, maxRetries, id) {
      if id !in Play(acts, maxRetries).settled {
        PlayListed(acts, maxRetries, id);
      }
    } else {
      PlayUnopened(acts, maxRetries, id);
      PlayWired(acts, maxRetries);
      SettledHasRow(EraseAll(acts, maxRetries), id);
    }
  }

  lemma ClosedActs(b: Sys, id: string, g: GatewayAct)
    requires id in b.calls && b.calls[id].phase.Closed?
    ensures OnGateway(b, id, g).calls == b.calls
  {
    hide CacheKey, LiveReply, ReserveNow, InsertLog, InsertSession, Q.Emit, EventOf;
  }

  lemma ClosedStays(b: Sys, act: Act, maxRetries: int, id: string)
    requires id in b.calls && b.calls[id].phase.Closed?
    ensures var c := Do(b, act, maxRetries); id in c.calls && c.calls[id] == b.calls[id]
  {
    hide OnGateway, OnWork, OnSweep, OnAudit, GatewayStep;
    if act.Gateway? {
      if act.id == id {
        ClosedActs(b, id, act.g);
      } else {
        OthersKeepCall(b, act.id, act.g, id);
      }
    } else {
      OthersKeepCalls(b, act, maxRetries);
    }
  }

  lemma OthersKeepCall(b: Sys, who: string, g: GatewayAct, id: string)
    requires id in b.calls && who != id
    ensures var c := OnGateway(b, who, g); id in c.calls && c.calls[id] == b.calls[id]
  {
    hide OnGateway;
    OnGatewayStep(b, who, g);
  }

  /** A call that ended with its hold placed and its session not opened keeps the hold in every continuation: it is
      never listed, never settled, and nothing is ever given back. */
  lemma {:induction false} HoldLeaksForever(acts: seq<Act>, more: seq<Act>, maxRetries: int, id: string)
    requires var b := Play(acts, maxRetries); id in b.calls && b.calls[id].phase.Closed?
    requires !Opened(acts, maxRetries, id)
    ensures var c := Play(acts + more, maxRetries);
            && id in c.calls && c.calls[id] == Play(acts, maxRetries).calls[id]
            && !Opened(acts + more, maxRetries, id)
            && id !in c.settled && id !in c.db.sessions && !HasSettlementRow(c.db.rows, id)
  {
    hide Do, Opened, HasSettlementRow;
    var all := acts + more;
    if more == [] {
      assert all == acts;
    } else {
      var n := |more| - 1;
      HoldLeaksForever(acts, more[..n], maxRetries, id);
      assert all[..|all| - 1] == acts + more[..n];
      OpenedSnoc(all, maxRetries, id);
      ClosedStays(Play(acts + more[..n], maxRetries), more[n], maxRetries, id);
    }
    UnlistedIffUnopened(all, maxRetries, id);
  }
}
