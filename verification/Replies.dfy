/** Idempotent replay: a stored 2xx answer is the only one its key will ever give within the TTL. */
module Replies {
  import opened Ledger
  import opened Billing
  import opened Outcomes
  import opened System
  import opened Simulation
  import opened Erasure
  import Q = Queue

  ghost predicate NoColon(s: string) { ':' !in s }

  /** The text up to the first colon determines the user. */
  lemma SameHead(a: string, x: string, b: string, y: string)
    requires NoColon(a) && NoColon(b) && a + ":" + x == b + ":" + y
    ensures a == b && x == y
  {
    var s := a + ":" + x;
    assert s == b + ":" + y;
    assert s[|a|] == ':' && forall i | 0 <= i < |a| :: s[i] == a[i] && a[i] != ':';
    assert s[|b|] == ':' && forall i | 0 <= i < |b| :: s[i] == b[i] && b[i] != ':';
    assert |a| == |b|;
    assert a == s[..|a|] && b == s[..|b|];
    assert x == s[|a| + 1..] && y == s[|b| + 1..];
  }

  /** The text after the last colon determines the path. */
  lemma SameTail(x: string, a: string, y: string, b: string)
    requires NoColon(a) && NoColon(b) && x + ":" + a == y + ":" + b
    ensures x == y && a == b
  {
    var s := x + ":" + a;
    assert s == y + ":" + b;
    assert s[|x|] == ':' && forall i | |x| < i < |s| :: s[i] == a[i - |x| - 1] && a[i - |x| - 1] != ':';
    assert s[|y|] == ':' && forall i | |y| < i < |s| :: s[i] == b[i - |y| - 1] && b[i - |y| - 1] != ':';
    assert |x| == |y|;
    assert x == s[..|x|] && y == s[..|y|];
    assert a == s[|x| + 1..] && b == s[|y| + 1..];
  }

  /** Users are UUIDs; as long as paths carry no colon either, the cache key tells all three parts apart. */
  lemma CacheKeyInjective(u: string, k: string, p: string, u': string, k': string, p': string)
    requires NoColon(u) && NoColon(u') && NoColon(p) && NoColon(p')
    requires CacheKey(u, k, p) == CacheKey(u', k', p')
    ensures u == u' && k == k' && p == p'
  {
    assert CacheKey(u, k, p) == u + ":" + (k + ":" + p);
    assert CacheKey(u', k', p') == u' + ":" + (k' + ":" + p');
    SameHead(u, k + ":" + p, u', k' + ":" + p');
    SameTail(k, p, k', p');
  }

  /** A colon in a path is enough to make two different requests share a key. */
  lemma ColonInPathCollides(u: string, k: string, p: string, q: string)
    ensures CacheKey(u, k, p + ":" + q) == CacheKey(u, k + ":" + p, q)
  {
    calc {
      CacheKey(u, k, p + ":" + q);
      u + ":" + k + ":" + p + ":" + q;
      CacheKey(u, k + ":" + p, q);
    }
  }

  /** No user id or path among the calls contains a colon. */
  ghost predicate Plain(b: Sys) {
    forall id | id in b.calls :: NoColon(b.calls[id].user) && NoColon(b.calls[id].path)
  }

  lemma {:induction false} PlayConcat(acts: seq<Act>, more: seq<Act>, maxRetries: int)
    ensures Play(acts + more, maxRetries) == PlayFrom(Play(acts, maxRetries), more, maxRetries)
  {
    hide Do;
    if more == [] {
      assert acts + more == acts;
    } else {
      PlayConcat(acts, more[..|more| - 1], maxRetries);
      assert (acts + more)[..|acts + more| - 1] == acts + more[..|more| - 1];
    }
  }

  // ----- what acts can do to calls and replies -----

  /** A call keeps its identity; one that was answered from the cache never moves again. */
  ghost predicate CallsKept(b: Sys, c: Sys) {
    forall id | id in b.calls ::
      && id in c.calls
      && c.calls[id].(held := b.calls[id].held, phase := b.calls[id].phase) == b.calls[id]
      && (b.calls[id].phase.Replayed? ==> c.calls[id] == b.calls[id])
  }

  lemma OneCallMoved(b: Sys, c: Sys, id: string)
    requires id in c.calls && c.calls == b.calls[id := c.calls[id]]
    requires id in b.calls ==>
               && c.calls[id].(held := b.calls[id].held, phase := b.calls[id].phase) == b.calls[id]
               && (b.calls[id].phase.Replayed? ==> c.calls[id] == b.calls[id])
    ensures CallsKept(b, c)
  {
  }

  lemma OnePhaseMoved(b: Sys, c: Sys, id: string)
    requires id in b.calls
    requires c.calls == b.calls || (!b.calls[id].phase.Replayed? && id in c.calls
                                    && c.calls == b.calls[id := b.calls[id].(phase := c.calls[id].phase)])
    ensures CallsKept(b, c)
  {
  }

  lemma PutCacheCalls(b: Sys, user: string, balance: int, lost: bool)
    ensures PutCache(b, user, balance, lost).calls == b.calls
  {
  }

  lemma PhaseCalls(b: Sys, id: string, p: Phase)
    requires id in b.calls
    ensures SetPhase(b, id, p).calls == b.calls[id := b.calls[id].(phase := p)]
  {
  }

  /** Up to the hold, an act moves its own call to another phase or no call at all. */
  lemma BeforeHoldPhase(b: Sys, id: string, g: GatewayAct)
    requires id in b.calls
    ensures var c := BeforeHold(b, id, g);
            c.calls == b.calls || (!b.calls[id].phase.Replayed? && id in c.calls && !c.calls[id].phase.HoldPlaced?
                                   && c.calls == b.calls[id := b.calls[id].(phase := c.calls[id].phase)])
  {
    hide CacheKey, SetPhase, PutCache;
    var c := b.calls[id];
    PhaseCalls(b, id, Admitted);
    PhaseCalls(b, id, Missed);
    PhaseCalls(b, id, Closed);
    match g
    case Lookup(_) =>
      var key := CacheKey(c.user, c.clientKey, c.path);
      if LiveReply(b, key) {
        PhaseCalls(b, id, Replayed(b.replies[key].resp));
      }
    case ReadCache =>
      if c.user in b.cache {
        PhaseCalls(b, id, Seen(b.cache[c.user]));
      }
    case Fetch =>
      if c.user in b.db.balances {
        PhaseCalls(b, id, Fetched(b.db.balances[c.user]));
      }
    case Fill(lost) =>
      if c.phase.Fetched? {
        PhaseCalls(b, id, Seen(c.phase.balance));
        PutCacheCalls(SetPhase(b, id, Seen(c.phase.balance)), c.user, c.phase.balance, lost);
      }
    case _ =>
  }

  lemma BeforeHoldCallsKept(b: Sys, id: string, g: GatewayAct)
    requires id in b.calls
    ensures CallsKept(b, BeforeHold(b, id, g))
  {
    hide CallsKept, BeforeHold;
    BeforeHoldPhase(b, id, g);
    OnePhaseMoved(b, BeforeHold(b, id, g), id);
  }

  lemma SinceHoldCallsKept(b: Sys, id: string, g: GatewayAct)
    requires id in b.calls
    ensures CallsKept(b, SinceHold(b, id, g))
  {
    hide CallsKept, SinceHold;
    SinceHoldPhase(b, id, g);
    OnePhaseMoved(b, SinceHold(b, id, g), id);
  }

  /** From the hold on, an act moves its own call to another phase or no call at all. */
  lemma SinceHoldPhase(b: Sys, id: string, g: GatewayAct)
    requires id in b.calls
    ensures var c := SinceHold(b, id, g);
            c.calls == b.calls || (!b.calls[id].phase.Replayed? && id in c.calls && !c.calls[id].phase.HoldPlaced?
                                   && c.calls == b.calls[id := b.calls[id].(phase := c.calls[id].phase)])
  {
    hide InsertLog, InsertSession, CacheKey, Q.Emit, EventOf, SetPhase, PutCache;
    var c := b.calls[id];
    PhaseCalls(b, id, Closed);
    match g
    case Publish(lost) =>
      if c.phase.HoldPlaced? {
        PhaseCalls(b, id, Published);
        PutCacheCalls(SetPhase(b, id, Published), c.user, c.phase.left, lost);
      }
    case Note => PhaseCalls(b.(db := InsertLog(b.db, id, c.user, c.hold)), id, Logged);
    case Open(expires) => PhaseCalls(b.(db := InsertSession(b.db, id, c.user, c.hold, expires)), id, Forwarded);
    case Answer(resp, _) => PhaseCalls(b, id, Answered(resp));
    case _ =>
  }

  lemma GatewayCallsKept(b: Sys, id: string, g: GatewayAct)
    ensures CallsKept(b, OnGateway(b, id, g))
  {
    hide CanHold, AfterHold, BeforeHold, SinceHold, CallsKept;
    if id in b.calls {
      BeforeHoldCallsKept(b, id, g);
      SinceHoldCallsKept(b, id, g);
      if g.Reserve? || g.Abort? || g.Arrive? {
        OneCallMoved(b, OnGateway(b, id, g), id);
      }
    } else {
      OneNewCall(b, id, g);
    }
  }

  lemma OneNewCall(b: Sys, id: string, g: GatewayAct)
    requires id !in b.calls
    ensures CallsKept(b, OnGateway(b, id, g))
  {
    hide BeforeHold, SinceHold, ReserveNow;
  }

  lemma WorkKeepsCalls(b: Sys, j: nat, w: JobAct, maxRetries: int)
    ensures OnWork(b, j, w, maxRetries).calls == b.calls && OnWork(b, j, w, maxRetries).replies == b.replies
  {
    hide AttemptNow, Q.Ack, Q.Bury, Q.Deliver, Q.Reclaim, Q.Deliveries, DeleteSession;
    if w.Attempt? && w.price.Some? && j in b.jobs && b.jobs[j].msg < |b.queue.stream| {
      AttemptKeepsCalls(b, j, w.price.value, w.status);
    }
  }

  lemma AttemptKeepsCalls(b: Sys, j: nat, price: nat, status: Status)
    requires j in b.jobs && b.jobs[j].msg < |b.queue.stream|
    ensures var c := AttemptNow(b, j, price, status); c.calls == b.calls && c.replies == b.replies
  {
    hide CanSettle, AfterSettle, CaptureRelease;
  }

  lemma OthersKeepCalls(b: Sys, act: Act, maxRetries: int)
    requires !act.Gateway?
    ensures Do(b, act, maxRetries).calls == b.calls && Do(b, act, maxRetries).replies == b.replies
  {
    hide CanDeposit, AfterDeposit, Reconciled, Q.Emit, OnWork, OnSweep, OnAudit;
    match act
    case Work(j, w) => WorkKeepsCalls(b, j, w, maxRetries);
    case Sweeping(j, p) => SweepKeepsRest(b, j, p);
    case Auditing(u, n, k, lost) => AuditKeepsRest(b, u, n, k, lost);
    case _ =>
  }

  lemma DoCallsKept(b: Sys, act: Act, maxRetries: int)
    ensures CallsKept(b, Do(b, act, maxRetries))
  {
    hide OnGateway, OnWork, OnSweep;
    if act.Gateway? {
      GatewayCallsKept(b, act.id, act.g);
    } else {
      OthersKeepCalls(b, act, maxRetries);
    }
  }

  /** Only the end of an answered call writes a reply, under that call's key. */
  lemma RepliesChange(b: Sys, act: Act, maxRetries: int, key: string)
    requires key in b.replies
    ensures var c := Do(b, act, maxRetries);
            || (key in c.replies && c.replies[key] == b.replies[key])
            || (&& act.Gateway? && act.id in b.calls && b.calls[act.id].phase.Answered?
                && b.calls[act.id].clientKey != ""
                && key == CacheKey(b.calls[act.id].user, b.calls[act.id].clientKey, b.calls[act.id].path))
  {
    hide OnWork, OnSweep, CacheKey, CanHold, AfterHold, InsertLog, InsertSession, LiveReply, Q.Emit, EventOf;
    if !act.Gateway? {
      OthersKeepCalls(b, act, maxRetries);
    }
  }

  // ----- the theorems -----

  lemma ReplyKeptByAct(b: Sys, act: Act, maxRetries: int, key: string)
    requires Wired(b) && Sound(Abs(b)) && Plain(b) && key in b.replies
    ensures key in Do(b, act, maxRetries).replies && Do(b, act, maxRetries).replies[key] == b.replies[key]
  {
    hide Do, Sound, CacheKey, Abs;
    RepliesChange(b, act, maxRetries, key);
    var e := b.replies[key];
    assert ReplyOk(b, key, e);
    if act.Gateway? && act.id in b.calls && b.calls[act.id].phase.Answered? && b.calls[act.id].clientKey != "" {
      var x, y := b.calls[act.id], b.calls[e.caller];
      if key == CacheKey(x.user, x.clientKey, x.path) {
        assert CallOk(b, act.id);
        CacheKeyInjective(x.user, x.clientKey, x.path, y.user, y.clientKey, y.path);
        SameKeySameCall(b, act.id, e.caller);
      }
    }
  }

  lemma SameKeySameCall(b: Sys, x: string, y: string)
    requires Sound(Abs(b)) && x in b.calls && y in b.calls && b.calls[x].held && b.calls[y].held
    requires b.calls[x].clientKey == b.calls[y].clientKey != ""
    ensures x == y
  {
    hide Sound;
    RefIdentifies(Abs(b), x, y);
  }

  /** A reply, once stored, is never replaced, however many later calls carry its key. */
  lemma {:induction false} ReplyStored(acts: seq<Act>, more: seq<Act>, maxRetries: int, key: string)
    requires Plain(Play(acts + more, maxRetries)) && key in Play(acts, maxRetries).replies
    ensures key in Play(acts + more, maxRetries).replies
    ensures Play(acts + more, maxRetries).replies[key] == Play(acts, maxRetries).replies[key]
    ensures CallsKept(Play(acts, maxRetries), Play(acts + more, maxRetries))
  {
    hide Do, Sound, Wired, Abs;
    if more == [] {
      assert acts + more == acts;
    } else {
      var n := |more| - 1;
      var front, last := more[..n], more[n];
      var b := Play(acts + front, maxRetries);
      assert (acts + more)[..|acts + more| - 1] == acts + front;
      DoCallsKept(b, last, maxRetries);
      assert Plain(b);
      ReplyStored(acts, front, maxRetries, key);
      PlayWired(acts + front, maxRetries);
      ErasedRun(acts + front, maxRetries);
      ReplyKeptByAct(b, last, maxRetries, key);
    }
  }

  /** A later call with the same user, key and path, looked up within the TTL, is answered with the stored
      status and body; it places no hold then, and never will. */
  lemma ReplayWithinTtl(acts: seq<Act>, more: seq<Act>, maxRetries: int, id: string)
    requires var c := Play(acts + more, maxRetries);
             && Plain(c) && id in c.calls && c.calls[id].phase.Arrived? && c.calls[id].clientKey != ""
             && var key := CacheKey(c.calls[id].user, c.calls[id].clientKey, c.calls[id].path);
                key in Play(acts, maxRetries).replies && c.now < Play(acts, maxRetries).replies[key].at + REPLY_TTL
    ensures var c := Play(acts + more, maxRetries);
            var key := CacheKey(c.calls[id].user, c.calls[id].clientKey, c.calls[id].path);
            var t := Do(c, Gateway(id, Lookup(false)), maxRetries);
            && t.calls[id].phase == Replayed(Play(acts, maxRetries).replies[key].resp)
            && t.db == c.db && !t.calls[id].held
            && forall rest: seq<Act> :: id in PlayFrom(t, rest, maxRetries).calls
                                        && PlayFrom(t, rest, maxRetries).calls[id] == t.calls[id]
  {
    hide CacheKey;
    var c := Play(acts + more, maxRetries);
    var key := CacheKey(c.calls[id].user, c.calls[id].clientKey, c.calls[id].path);
    ReplyStored(acts, more, maxRetries, key);
    PlayWired(acts + more, maxRetries);
    WiredCall(c, id);
    var t := Do(c, Gateway(id, Lookup(false)), maxRetries);
    forall rest: seq<Act>
      ensures id in PlayFrom(t, rest, maxRetries).calls && PlayFrom(t, rest, maxRetries).calls[id] == t.calls[id]
    {
      ReplayedStays(t, rest, maxRetries, id);
    }
  }

  /** The end of an answered call with a client key: a 2xx answer is stored under its cache key, with the time, and any
      other answer, or a lost write, changes no reply. */
  lemma ReplyWritten(b: Sys, id: string, lost: bool, maxRetries: int)
    requires id in b.calls && b.calls[id].phase.Answered? && b.calls[id].clientKey != ""
    ensures var call := b.calls[id];
            var c := Do(b, Gateway(id, Remember(lost)), maxRetries);
            && c.replies == (if !lost && 200 <= call.phase.resp.status < 300
                             then b.replies[CacheKey(call.user, call.clientKey, call.path) := Entry(call.phase.resp, b.now, id)]
                             else b.replies)
            && c.db == b.db && c.now == b.now && c.queue == b.queue
            && c.calls == b.calls[id := call.(phase := Closed)]
  {
    hide BeforeHold, ReserveNow, CacheKey, InsertLog, InsertSession, Q.Emit, EventOf;
  }

  ghost predicate SameAsk(x: Call, y: Call) {
    x.user == y.user && x.clientKey == y.clientKey && x.path == y.path
  }

  /** A call that ended in a stored 2xx answer: every later call with the same user, key and path, looked up within
      86 400 seconds by a look-up that does not fail, gets that very answer, and places no hold then or ever. */
  lemma RememberedAnswer(acts: seq<Act>, more: seq<Act>, maxRetries: int, id: string, other: string)
    requires var b := Play(acts, maxRetries);
             && id in b.calls && b.calls[id].phase.Answered? && b.calls[id].clientKey != ""
             && 200 <= b.calls[id].phase.resp.status < 300
    requires var c := Play(acts + [Gateway(id, Remember(false))] + more, maxRetries);
             && Plain(c) && other in c.calls && c.calls[other].phase.Arrived?
             && SameAsk(Play(acts, maxRetries).calls[id], c.calls[other])
             && c.now < Play(acts, maxRetries).now + 86400
    ensures var c := Play(acts + [Gateway(id, Remember(false))] + more, maxRetries);
            var t := Do(c, Gateway(other, Lookup(false)), maxRetries);
            && other in t.calls && t.calls[other].phase == Replayed(Play(acts, maxRetries).calls[id].phase.resp)
            && t.db == c.db && !t.calls[other].held
            && forall rest: seq<Act> :: other in PlayFrom(t, rest, maxRetries).calls
                                        && PlayFrom(t, rest, maxRetries).calls[other] == t.calls[other]
  {
    hide Play, Do, Plain, CacheKey, CallsKept;
    var b := Play(acts, maxRetries);
    var remember := Gateway(id, Remember(false));
    var done := acts + [remember];
    assert Play(done, maxRetries) == Do(b, remember, maxRetries) by {
      PlaySnoc(acts, remember, maxRetries);
    }
    ReplyWritten(b, id, false, maxRetries);
    var c := Play(done + more, maxRetries);
    var key := CacheKey(b.calls[id].user, b.calls[id].clientKey, b.calls[id].path);
    assert key in Play(done, maxRetries).replies;
    ReplayWithinTtl(done, more, maxRetries, other);
    var t := Do(c, Gateway(other, Lookup(false)), maxRetries);
    assert PlayFrom(t, [], maxRetries) == t;
  }

  lemma PlaySnoc(acts: seq<Act>, act: Act, maxRetries: int)
    ensures Play(acts + [act], maxRetries) == Do(Play(acts, maxRetries), act, maxRetries)
  {
    hide Do;
    assert (acts + [act])[..|acts|] == acts;
  }

  /** A look-up answers from the cache exactly when it does not fail and a reply is stored under the call's key and less
      than 86 400 seconds old; otherwise it lets the call through. */
  lemma LookupLaw(b: Sys, id: string, fault: bool, maxRetries: int)
    requires id in b.calls && b.calls[id].phase.Arrived?
    ensures var call := b.calls[id];
            var key := CacheKey(call.user, call.clientKey, call.path);
            var c := Do(b, Gateway(id, Lookup(fault)), maxRetries);
            && id in c.calls && c.db == b.db && c.replies == b.replies
            && (if !fault && call.clientKey != "" && key in b.replies && b.now - b.replies[key].at < 86400
                then c.calls[id] == call.(phase := Replayed(b.replies[key].resp))
                else c.calls[id] == call.(phase := Admitted))
  {
    hide SinceHold, ReserveNow, CacheKey;
  }

  lemma {:induction false} ReplayedStays(b: Sys, rest: seq<Act>, maxRetries: int, id: string)
    requires id in b.calls && b.calls[id].phase.Replayed?
    ensures id in PlayFrom(b, rest, maxRetries).calls && PlayFrom(b, rest, maxRetries).calls[id] == b.calls[id]
  {
    hide Do;
    if rest != [] {
      ReplayedStays(b, rest[..|rest| - 1], maxRetries, id);
      DoCallsKept(PlayFrom(b, rest[..|rest| - 1], maxRetries), rest[|rest| - 1], maxRetries);
    }
  }
}
