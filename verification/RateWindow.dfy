/**
 The per-user rate limit (internal/redis/client.go): a sorted set whose members are the seconds of
 the calls, trimmed to the last minute on every call, with a two-minute expiry on the key.
 */
module RateWindow {
  datatype Window = Window(members: set<int>, expires: int)

  const EMPTY := Window({}, 0)

  /** One call at second `now`: drop what is 60 or more seconds old, add now, count, renew the expiry. */
  function Called(w: Window, now: int): Window {
    var live := if now < w.expires then w.members else {};
    Window((set t | t in live && t > now - 60) + {now}, now + 120)
  }

  function AfterCalls(times: seq<int>): Window {
    if times == [] then EMPTY else Called(AfterCalls(times[..|times| - 1]), times[|times| - 1])
  }

  class RateLimiter {
    var members: set<int>
    var expires: int

    ghost function View(): Window
      reads this
    {
      Window(members, expires)
    }

    constructor ()
      ensures View() == EMPTY
    {
      members, expires := {}, 0;
    }

    /** The pipeline ZREMRANGEBYSCORE, ZADD, ZCARD, EXPIRE. */
    method AllowRate(now: int, rpm: int) returns (ok: bool)
      modifies this
      ensures View() == Called(old(View()), now)
      ensures ok <==> |members| <= rpm
    {
      if now >= expires {
        members := {};
      }
      members := set t | t in members && t > now - 60;
      members := members + {now};
      var count := |members|;
      expires := now + 120;
      return count <= rpm;
    }
  }

  ghost predicate Ordered(times: seq<int>) {
    forall i, j | 0 <= i < j < |times| :: times[i] <= times[j]
  }

  /** The distinct seconds among the calls that fall in (now - 60, now]. */
  ghost function ActiveSeconds(times: seq<int>): set<int>
    requires times != []
  {
    var now := times[|times| - 1];
    set t | t in times && now - 60 < t <= now
  }

  /** How many calls fall in that minute. */
  ghost function CallsSince(times: seq<int>, since: int): nat {
    if times == [] then 0
    else CallsSince(times[..|times| - 1], since) + (if times[|times| - 1] > since then 1 else 0)
  }

  /** One more call: what is trimmed is what left the minute. */
  lemma ActiveSnoc(front: seq<int>, now: int)
    requires front != [] && front[|front| - 1] <= now && forall t | t in front :: t <= front[|front| - 1]
    ensures ActiveSeconds(front + [now]) == (set t | t in ActiveSeconds(front) && t > now - 60) + {now}
  {
    forall t ensures t in front + [now] <==> t in front || t == now {
    }
  }

  /** After any run of calls the stored set is exactly the distinct active seconds: trimming loses nothing
      and the key's expiry never changes an answer. */
  lemma {:induction false} WindowIsActiveSeconds(times: seq<int>)
    requires Ordered(times) && times != [] && times[0] >= 0
    ensures AfterCalls(times).members == ActiveSeconds(times)
    ensures AfterCalls(times).expires == times[|times| - 1] + 120
  {
    hide ActiveSeconds, Ordered;
    var n := |times| - 1;
    var front, now := times[..n], times[n];
    assert times == front + [now];
    if n > 0 {
      OrderedFront(times);
      WindowIsActiveSeconds(front);
      ActiveSnoc(front, now);
      if now >= front[n - 1] + 120 {
        NoneLeft(front, now);
      }
    } else {
      OneCall(now);
    }
  }

  lemma OneCall(now: int)
    ensures ActiveSeconds([now]) == {now}
  {
  }

  lemma OrderedFront(times: seq<int>)
    requires Ordered(times) && |times| > 1
    ensures var front, now := times[..|times| - 1], times[|times| - 1];
            Ordered(front) && front[|front| - 1] <= now && forall t | t in front :: t <= front[|front| - 1]
  {
  }

  /** When the key has expired, everything in it has left the minute. */
  lemma NoneLeft(front: seq<int>, now: int)
    requires front != [] && front[|front| - 1] + 120 <= now
    ensures (set t | t in ActiveSeconds(front) && t > now - 60) == {}
  {
  }

  lemma {:induction false} RangeSize(lo: int, n: nat, s: set<int>)
    requires forall t | t in s :: lo < t <= lo + n
    ensures |s| <= n
  {
    if n == 0 {
      forall t ensures t !in s {
      }
    } else {
      RangeSize(lo, n - 1, s - {lo + n});
    }
  }

  /** At most 60 seconds can be active, so a limit of 60 or more never refuses anybody. */
  lemma SixtyNeverRefuses(times: seq<int>, rpm: int)
    requires Ordered(times) && times != [] && times[0] >= 0 && rpm >= 60
    ensures |AfterCalls(times).members| <= 60 <= rpm
  {
    WindowIsActiveSeconds(times);
    RangeSize(times[|times| - 1] - 60, 60, ActiveSeconds(times));
  }

  /** How many of those calls came in a second that had already been called in. */
  ghost function RepeatsSince(times: seq<int>, since: int): nat {
    if times == [] then 0
    else
      var n := |times| - 1;
      RepeatsSince(times[..n], since) + (if times[n] > since && times[n] in times[..n] then 1 else 0)
  }

  ghost function SecondsSince(times: seq<int>, since: int): set<int> {
    set t | t in times && t > since
  }

  /** Calls are distinct seconds plus repeats. */
  lemma {:induction false} CallsAreSecondsAndRepeats(times: seq<int>, since: int)
    ensures CallsSince(times, since) == |SecondsSince(times, since)| + RepeatsSince(times, since)
  {
    if times == [] {
      assert SecondsSince(times, since) == {};
    } else {
      var n := |times| - 1;
      var before := SecondsSince(times[..n], since);
      CallsAreSecondsAndRepeats(times[..n], since);
      assert times == times[..n] + [times[n]];
      if times[n] > since && times[n] !in times[..n] {
        assert SecondsSince(times, since) == before + {times[n]};
      } else {
        assert SecondsSince(times, since) == before;
      }
    }
  }

  /** Two calls after `since` in the same second. */
  ghost predicate SharedSecond(times: seq<int>, since: int) {
    exists i, j | 0 <= i < j < |times| :: times[i] == times[j] > since
  }

  lemma {:induction false} RepeatsIffShared(times: seq<int>, since: int)
    ensures RepeatsSince(times, since) > 0 <==> SharedSecond(times, since)
  {
    if times != [] {
      var n := |times| - 1;
      var front := times[..n];
      RepeatsIffShared(front, since);
      if SharedSecond(front, since) {
        var i, j :| 0 <= i < j < |front| && front[i] == front[j] > since;
        assert times[i] == times[j] > since;
      }
      if times[n] > since && times[n] in front {
        var i :| 0 <= i < n && front[i] == times[n];
        assert times[i] == times[n] > since;
      }
      if SharedSecond(times, since) {
        var i, j :| 0 <= i < j < |times| && times[i] == times[j] > since;
        if j < n {
          assert front[i] == front[j] > since;
        } else {
          assert front[i] == times[n];
        }
      }
    }
  }

  /** What AllowRate answers to the last call. */
  ghost predicate Allowed(times: seq<int>, rpm: int) {
    |AfterCalls(times).members| <= rpm
  }

  /** What a limit on requests per minute would answer. */
  ghost predicate Intended(times: seq<int>, rpm: int)
    requires times != []
  {
    CallsSince(times, times[|times| - 1] - 60) <= rpm
  }

  /** The limit is meant for requests per minute.  It is never stricter than that; the answer is wrong for
      exactly as many limits as there were repeated calls, from the number of active seconds on; and it
      is right for every limit exactly when no two calls of the last minute share a second. */
  lemma CountsSecondsNotRequests(times: seq<int>)
    requires Ordered(times) && times != [] && times[0] >= 0
    ensures var since := times[|times| - 1] - 60;
            var active := |ActiveSeconds(times)|;
            && (forall rpm :: Intended(times, rpm) ==> Allowed(times, rpm))
            && (forall rpm :: Allowed(times, rpm) != Intended(times, rpm) <==>
                                active <= rpm < active + RepeatsSince(times, since))
            && ((forall rpm :: Allowed(times, rpm) <==> Intended(times, rpm)) <==> !SharedSecond(times, since))
  {
    hide AfterCalls, CallsSince, RepeatsSince, SharedSecond;
    var since := times[|times| - 1] - 60;
    WindowIsActiveSeconds(times);
    assert ActiveSeconds(times) == SecondsSince(times, since);
    CallsAreSecondsAndRepeats(times, since);
    RepeatsIffShared(times, since);
    assert SharedSecond(times, since) ==>
           Allowed(times, |ActiveSeconds(times)|) && !Intended(times, |ActiveSeconds(times)|);
  }

  /** Any number of requests within one second passes any positive limit. */
  lemma BurstPasses(now: int, n: nat, rpm: int)
    requires now >= 0 && n > 0 && rpm >= 1
    ensures var times := seq(n, (_: nat) => now);
            |AfterCalls(times).members| <= rpm && CallsSince(times, now - 60) == n
  {
    var times := seq(n, (_: nat) => now);
    WindowIsActiveSeconds(times);
    assert ActiveSeconds(times) == {now};
    BurstCounts(now, n, times);
  }

  lemma {:induction false} BurstCounts(now: int, n: nat, times: seq<int>)
    requires |times| == n && forall i | 0 <= i < n :: times[i] == now
    ensures CallsSince(times, now - 60) == n
  {
    if n > 0 {
      BurstCounts(now, n - 1, times[..n - 1]);
    }
  }
}
