/**
  The Redis sliding-window limiter (app/core/rate_limiter.py). One pipeline
  prunes, adds, counts and sets the key's expiry; denied requests count too.
 */
module RateLimiter {
  import opened Common

  /** A sorted set of unique members, seen as its scores in insertion order. */
  datatype ScoreSet = ScoreSet(scores: seq<int>, expiresAt: int)

  datatype RateLimitResult = RateLimitResult(allowed: bool, remaining: int, reset: int)

  /** The scores above `cut`, in order. */
  function Above(scores: seq<int>, cut: int): (r: seq<int>)
    ensures |r| <= |scores|
  {
    if scores == [] then []
    else
      var rest := Above(scores[..|scores| - 1], cut);
      if scores[|scores| - 1] > cut then rest + [scores[|scores| - 1]] else rest
  }

  /** What Redis holds under a key at `now`: an expired key is gone. */
  function Held(entry: Option<ScoreSet>, now: int): seq<int>
  {
    if entry.Some? && now < entry.value.expiresAt then entry.value.scores else []
  }

  /** The simple form: a request is allowed when fewer than `limit` requests precede it within the window. */
  predicate Admits(history: seq<int>, limit: int, window: int, now: int)
  {
    |Above(history, now - window)| + 1 <= limit
  }

  class Limiter {
    var sets: map<string, ScoreSet>

    function Entry(key: string): Option<ScoreSet>
      reads this
    {
      if key in sets then Some(sets[key]) else None
    }

    constructor ()
      ensures sets == map[]
    {
      sets := map[];
    }

    /** One request; the whole pipeline is atomic. */
    method Check(key: string, limit: int, window: int, now: int) returns (r: RateLimitResult)
      modifies this
      ensures sets == old(sets)[key := After(old(Entry(key)), window, now)]
      ensures r.allowed <==> Admits(Held(old(Entry(key)), now), limit, window, now)
      ensures r.remaining == Max(0, limit - |sets[key].scores|)
      ensures r.reset == now
    {
      var windowStart := now - window;
      var held := [];
      if key in sets && now < sets[key].expiresAt { held := sets[key].scores; }
      var kept := Prune(held, windowStart);
      kept := kept + [now];
      var count := |kept|;
      sets := sets[key := ScoreSet(kept, now + window)];
      r := RateLimitResult(count <= limit, Max(0, limit - count), now - (now - windowStart) + window);
    }
  }

  /** ZREMRANGEBYSCORE from minus infinity to `cut`. */
  method Prune(scores: seq<int>, cut: int) returns (kept: seq<int>)
    ensures kept == Above(scores, cut)
  {
    kept := [];
    for k := 0 to |scores|
      invariant kept == Above(scores[..k], cut)
    {
      assert scores[..k + 1][..k] == scores[..k];
      if scores[k] > cut { kept := kept + [scores[k]]; }
    }
    assert scores[..|scores|] == scores;
  }

  /** The stored set after one request. */
  function After(entry: Option<ScoreSet>, window: int, now: int): ScoreSet
  {
    ScoreSet(Above(Held(entry, now), now - window) + [now], now + window)
  }

  // -------------------------------------------------------------- whole runs

  predicate Monotone(times: seq<int>) { forall i, j | 0 <= i < j < |times| :: times[i] <= times[j] }

  /** The stored set after a run of requests on one key. */
  function Stored(times: seq<int>, window: int): Option<ScoreSet>
  {
    if times == [] then None
    else Some(After(Stored(times[..|times| - 1], window), window, times[|times| - 1]))
  }

  lemma {:induction false} AboveSplits(a: seq<int>, b: seq<int>, cut: int)
    ensures Above(a + b, cut) == Above(a, cut) + Above(b, cut)
  {
    if b == [] {
      assert a + b == a;
    } else {
      AboveSplits(a, b[..|b| - 1], cut);
      assert (a + b)[..|a + b| - 1] == a + b[..|b| - 1];
    }
  }

  lemma {:induction false} AboveTwice(s: seq<int>, low: int, high: int)
    requires low <= high
    ensures Above(Above(s, low), high) == Above(s, high)
  {
    if s != [] {
      AboveTwice(s[..|s| - 1], low, high);
      AboveSplits(Above(s[..|s| - 1], low), [s[|s| - 1]], high);
      assert Above([s[|s| - 1]], high) == if s[|s| - 1] > high then [s[|s| - 1]] else [];
    }
  }

  lemma {:induction false} NoneAbove(s: seq<int>, cut: int)
    requires forall i | 0 <= i < |s| :: s[i] <= cut
    ensures Above(s, cut) == []
  {
    if s != [] { NoneAbove(s[..|s| - 1], cut); }
  }

  /**
    Pruning and key expiry never matter: what the pruned, expiring set shows
    above the window start is what a set that keeps everything would show.
   */
  lemma {:induction false} StoredShowsTheHistory(times: seq<int>, window: int, now: int)
    requires Monotone(times) && (times != [] ==> times[|times| - 1] <= now)
    ensures Above(Held(Stored(times, window), now), now - window) == Above(times, now - window)
    decreases |times|
  {
    hide Above;
    if times == [] {
      NoneAbove(times, now - window);
    } else {
      var front, last := times[..|times| - 1], times[|times| - 1];
      var cut := now - window;
      if now < last + window {
        assert Monotone(front);
        StoredShowsTheHistory(front, window, last);
        var kept := Above(Held(Stored(front, window), last), last - window);
        assert Held(Stored(times, window), now) == kept + [last];
        AboveSplits(kept, [last], cut);
        AboveTwice(front, last - window, cut);
        assert front + [last] == times;
        AboveSplits(front, [last], cut);
      } else {
        NoneAbove(times, cut);
        NoneAbove([], cut);
      }
    }
  }

  /** The decision taken on the stored set is the decision on the full history. */
  lemma FastDecisionIsSimpleDecision(times: seq<int>, limit: int, window: int, now: int)
    requires Monotone(times) && (times != [] ==> times[|times| - 1] <= now)
    ensures Admits(Held(Stored(times, window), now), limit, window, now) <==> Admits(times, limit, window, now)
  {
    StoredShowsTheHistory(times, window, now);
  }

  /** The earlier requests that lie within the window before `now`. */
  function Recent(times: seq<int>, window: int, now: int): set<nat>
  {
    set k: nat | k < |times| && times[k] > now - window
  }

  lemma {:induction false} RecentAreAbove(times: seq<int>, window: int, now: int)
    ensures |Recent(times, window, now)| == |Above(times, now - window)|
    decreases |times|
  {
    if times != [] {
      var front, k := times[..|times| - 1], |times| - 1;
      RecentAreAbove(front, window, now);
      var before := Recent(front, window, now);
      if times[k] > now - window {
        assert Recent(times, window, now) == before + {k};
      } else {
        assert Recent(times, window, now) == before;
      }
    }
  }

  /** A request is allowed if and only if fewer than `limit` earlier ones, denied ones included, are recent. */
  lemma AllowedExactlyWhenRoom(times: seq<int>, limit: int, window: int, now: int)
    requires Monotone(times) && (times != [] ==> times[|times| - 1] <= now)
    ensures Admits(Held(Stored(times, window), now), limit, window, now) <==> |Recent(times, window, now)| < limit
  {
    StoredShowsTheHistory(times, window, now);
    RecentAreAbove(times, window, now);
  }

  /** Allowed requests with a <= time < a + window. */
  function AllowedWithin(times: seq<int>, limit: int, window: int, a: int): nat
  {
    if times == [] then 0
    else
      var front, last := times[..|times| - 1], times[|times| - 1];
      AllowedWithin(front, limit, window, a)
      + if Admits(Held(Stored(front, window), last), limit, window, last) && a <= last < a + window then 1 else 0
  }

  lemma {:induction false} AllowedAreAbove(times: seq<int>, limit: int, window: int, a: int, cut: int)
    requires cut < a
    ensures AllowedWithin(times, limit, window, a) <= |Above(times, cut)|
  {
    if times != [] { AllowedAreAbove(times[..|times| - 1], limit, window, a, cut); }
  }

  /** Main result: every half-open window of the configured length holds at most `limit` allowed requests. */
  lemma {:induction false} WindowNeverExceedsLimit(times: seq<int>, limit: int, window: int, a: int)
    requires Monotone(times)
    ensures AllowedWithin(times, limit, window, a) <= Max(0, limit)
    decreases |times|
  {
    hide Above, Stored;
    if times != [] {
      var front, last := times[..|times| - 1], times[|times| - 1];
      assert Monotone(front);
      WindowNeverExceedsLimit(front, limit, window, a);
      if a <= last < a + window {
        FastDecisionIsSimpleDecision(front, limit, window, last);
        AllowedAreAbove(front, limit, window, a, last - window);
      }
    }
  }
}
