/** `RateLimiter` of `server/error_handling.py`. Its docstring calls it a
    token bucket; it is a sliding log of the instants of granted requests,
    pruned and then appended to on every `acquire`. */
module RateLimiting {
  import opened Common

  /** The timestamps still inside the window: those strictly after
      `cutoff`, in their original order. */
  function Prune(requests: seq<int>, cutoff: int): (r: seq<int>)
    ensures |r| <= |requests|
    ensures forall i :: 0 <= i < |r| ==> r[i] > cutoff
    decreases |requests|
  {
    if requests == [] then []
    else
      var rest := Prune(requests[..|requests| - 1], cutoff);
      if requests[|requests| - 1] > cutoff then rest + [requests[|requests| - 1]] else rest
  }

  /** The cap on the log a limiter keeps (no request is ever granted when
      `max_requests` is not positive). */
  function Cap(maxRequests: int): nat {
    if maxRequests < 0 then 0 else maxRequests
  }

  /** What one `acquire` decides, and the log it leaves. */
  datatype Decision = Decision(granted: bool, log: seq<int>)

  /** `acquire` at instant `now`: whether it grants, and the new log. */
  function Admission(maxRequests: int, timeWindow: int, requests: seq<int>, now: int): Decision {
    var kept := Prune(requests, now - timeWindow);
    if |kept| < maxRequests then Decision(true, kept + [now]) else Decision(false, kept)
  }

  class RateLimiter {
    const maxRequests: int
    const timeWindow: int
    var requests: seq<int>

    ghost predicate Valid()
      reads this
    {
      |requests| <= Cap(maxRequests)
    }

    constructor (maxRequests: int, timeWindow: int)
      ensures this.maxRequests == maxRequests && this.timeWindow == timeWindow
      ensures requests == [] && Valid()
    {
      this.maxRequests := maxRequests;
      this.timeWindow := timeWindow;
      requests := [];
    }

    /** `acquire`: drops every timestamp at or before `now - time_window`,
        then grants and records `now` iff fewer than `max_requests`
        remain. */
    method Acquire(now: int) returns (granted: bool)
      requires Valid()
      modifies this
      ensures Valid()
      ensures Decision(granted, requests) == Admission(maxRequests, timeWindow, old(requests), now)
      ensures granted <==> |Prune(old(requests), now - timeWindow)| < maxRequests
    {
      var cutoff := now - timeWindow;
      var kept: seq<int> := [];
      var i := 0;
      while i < |requests|
        invariant 0 <= i <= |requests|
        invariant kept == Prune(requests[..i], cutoff)
      {
        assert requests[..i + 1][..i] == requests[..i];
        if requests[i] > cutoff {
          kept := kept + [requests[i]];
        }
        i := i + 1;
      }
      assert requests[..i] == requests;
      requests := kept;
      if |requests| < maxRequests {
        requests := requests + [now];
        granted := true;
      } else {
        granted := false;
      }
    }

    /** The wrapper `__call__` builds: the wrapped coroutine is awaited only
        when `acquire` grants; otherwise a generic Exception is raised. */
    method Call<T>(op: Outcome<T>, funcName: string, now: int) returns (r: Outcome<T>, invoked: bool)
      requires Valid()
      modifies this
      ensures Valid()
      ensures Decision(invoked, requests) == Admission(maxRequests, timeWindow, old(requests), now)
      ensures r == if invoked then op else Raises(GenericException("Rate limit exceeded for " + funcName))
    {
      invoked := Acquire(now);
      if invoked {
        r := op;
      } else {
        r := Raises(GenericException("Rate limit exceeded for " + funcName));
      }
    }
  }

  // ---------------------------------------------------------------------
  // Properties

  /** `acquire` never lets the log grow beyond `max_requests`. */
  lemma AcquireBounded(maxRequests: int, timeWindow: int, requests: seq<int>, now: int)
    requires |requests| <= Cap(maxRequests)
    ensures |Admission(maxRequests, timeWindow, requests, now).log| <= Cap(maxRequests)
  {
  }

  /** Pruning at a later cutoff after an earlier one is pruning at the later
      cutoff. */
  lemma {:induction false} PruneTwice(s: seq<int>, c1: int, c2: int)
    requires c1 <= c2
    ensures Prune(Prune(s, c1), c2) == Prune(s, c2)
    decreases |s|
  {
    if s != [] {
      var init := s[..|s| - 1];
      PruneTwice(init, c1, c2);
      var x := s[|s| - 1];
      if x > c1 {
        PruneAppend(Prune(init, c1), x, c2);
      }
    }
  }

  lemma PruneAppend(s: seq<int>, x: int, c: int)
    ensures Prune(s + [x], c) == if x > c then Prune(s, c) + [x] else Prune(s, c)
  {
    assert (s + [x])[..|s + [x]| - 1] == s;
  }

  /** Replays `acquire` at the given instants from an empty log: which
      instants were granted, and the final log. */
  datatype History = History(granted: seq<int>, log: seq<int>)

  function Replay(maxRequests: int, timeWindow: int, times: seq<int>): History
    decreases |times|
  {
    if times == [] then History([], [])
    else Next(maxRequests, timeWindow, Replay(maxRequests, timeWindow, times[..|times| - 1]), times[|times| - 1])
  }

  /** One `acquire` at `now` on top of a history. */
  function Next(maxRequests: int, timeWindow: int, h: History, now: int): History {
    var step := Admission(maxRequests, timeWindow, h.log, now);
    History(if step.granted then h.granted + [now] else h.granted, step.log)
  }

  /** The clock never goes back between consecutive calls. */
  predicate NonDecreasing(times: seq<int>)
    decreases |times|
  {
    |times| < 2 ||
    (times[|times| - 2] <= times[|times| - 1] && NonDecreasing(times[..|times| - 1]))
  }

  /** One more call after a replay: granted iff the pruned log has room. */
  lemma ReplayStep(maxRequests: int, timeWindow: int, times: seq<int>, now: int)
    ensures Replay(maxRequests, timeWindow, times + [now])
         == Next(maxRequests, timeWindow, Replay(maxRequests, timeWindow, times), now)
  {
    assert (times + [now])[..|times|] == times;
  }

  /** The log invariant carries over one call made no earlier than the
      previous one at `last`: the log stays the granted instants inside the
      window. */
  lemma AdmissionKeepsLog(maxRequests: int, timeWindow: int, h: History, last: int, now: int)
    requires timeWindow > 0 && last <= now
    requires h.log == Prune(h.granted, last - timeWindow)
    ensures var h' := Next(maxRequests, timeWindow, h, now);
      h'.log == Prune(h'.granted, now - timeWindow)
  {
    var kept := Prune(h.log, now - timeWindow);
    PruneTwice(h.granted, last - timeWindow, now - timeWindow);
    assert kept == Prune(h.granted, now - timeWindow);
    if |kept| < maxRequests {
      PruneAppend(h.granted, now, now - timeWindow);
      assert Admission(maxRequests, timeWindow, h.log, now) == Decision(true, kept + [now]);
    } else {
      assert Admission(maxRequests, timeWindow, h.log, now) == Decision(false, kept);
    }
  }

  /** The log is the granted instants inside the window of the call at
      `now`. */
  ghost predicate LogInWindow(maxRequests: int, timeWindow: int, times: seq<int>, now: int) {
    Replay(maxRequests, timeWindow, times).log == Prune(Replay(maxRequests, timeWindow, times).granted, now - timeWindow)
  }

  lemma LogInWindowExtends(maxRequests: int, timeWindow: int, init: seq<int>, last: int, now: int)
    requires timeWindow > 0 && last <= now
    requires LogInWindow(maxRequests, timeWindow, init, last)
    ensures LogInWindow(maxRequests, timeWindow, init + [now], now)
  {
    ReplayStep(maxRequests, timeWindow, init, now);
    AdmissionKeepsLog(maxRequests, timeWindow, Replay(maxRequests, timeWindow, init), last, now);
  }

  /** With a clock that never goes back and a positive window, the log is
      exactly the granted instants inside the window of the latest call. */
  lemma {:induction false} ReplayLog(maxRequests: int, timeWindow: int, times: seq<int>)
    requires timeWindow > 0 && NonDecreasing(times) && times != []
    ensures Replay(maxRequests, timeWindow, times).log
         == Prune(Replay(maxRequests, timeWindow, times).granted, times[|times| - 1] - timeWindow)
    decreases |times|
  {
    var init := times[..|times| - 1];
    var now := times[|times| - 1];
    assert times == init + [now];
    if init == [] {
      assert LogInWindow(maxRequests, timeWindow, init, now);
      LogInWindowExtends(maxRequests, timeWindow, init, now, now);
    } else {
      ReplayLog(maxRequests, timeWindow, init);
      LogInWindowExtends(maxRequests, timeWindow, init, init[|init| - 1], now);
    }
  }

  /** The promise of the limiter: however requests arrive (with a clock
      that never goes back), at most `max_requests` of the granted ones lie
      in the window that ends at the latest call. */
  lemma {:induction false} AtMostMaxPerWindow(maxRequests: int, timeWindow: int, times: seq<int>)
    requires timeWindow > 0 && NonDecreasing(times) && times != []
    ensures |Prune(Replay(maxRequests, timeWindow, times).granted, times[|times| - 1] - timeWindow)| <= Cap(maxRequests)
  {
    ReplayLog(maxRequests, timeWindow, times);
    ReplayBounded(maxRequests, timeWindow, times);
  }

  lemma {:induction false} ReplayBounded(maxRequests: int, timeWindow: int, times: seq<int>)
    ensures |Replay(maxRequests, timeWindow, times).log| <= Cap(maxRequests)
    decreases |times|
  {
    if times != [] {
      ReplayBounded(maxRequests, timeWindow, times[..|times| - 1]);
    }
  }

  /** Pruning keeps every instant after the cutoff. */
  lemma {:induction false} PruneKeepsAll(s: seq<int>, cutoff: int)
    requires forall i :: 0 <= i < |s| ==> s[i] > cutoff
    ensures Prune(s, cutoff) == s
    decreases |s|
  {
    if s != [] {
      assert s == s[..|s| - 1] + [s[|s| - 1]];
      PruneKeepsAll(s[..|s| - 1], cutoff);
    }
  }

  /** Pruning drops every instant at or before the cutoff. */
  lemma {:induction false} PruneDropsAll(s: seq<int>, cutoff: int)
    requires forall i :: 0 <= i < |s| ==> s[i] <= cutoff
    ensures Prune(s, cutoff) == []
    decreases |s|
  {
    if s != [] {
      PruneDropsAll(s[..|s| - 1], cutoff);
    }
  }

  lemma FirstTwo(w: int, a: int, b: int)
    requires a <= b && b - a < w
    ensures Replay(3, w, [a, b]) == History([a, b], [a, b])
  {
    ReplayStep(3, w, [], a);
    assert [] + [a] == [a];
    assert Replay(3, w, [a]) == History([a], [a]);
    ReplayStep(3, w, [a], b);
    assert [a] + [b] == [a, b];
    PruneKeepsAll([a], b - w);
  }

  lemma FirstThree(w: int, a: int, b: int, c: int)
    requires a <= b <= c && c - a < w
    ensures Replay(3, w, [a, b, c]) == History([a, b, c], [a, b, c])
  {
    FirstTwo(w, a, b);
    ReplayStep(3, w, [a, b], c);
    assert [a, b] + [c] == [a, b, c];
    PruneKeepsAll([a, b], c - w);
  }

  lemma FourthRefused(w: int, a: int, b: int, c: int, d: int)
    requires a <= b <= c <= d && d - a < w
    ensures Replay(3, w, [a, b, c, d]) == History([a, b, c], [a, b, c])
  {
    FirstThree(w, a, b, c);
    ReplayStep(3, w, [a, b, c], d);
    assert [a, b, c] + [d] == [a, b, c, d];
    PruneKeepsAll([a, b, c], d - w);
  }

  /** The scenario the limiter is built for, with at most 3 requests per
      window: three calls inside one window pass, a fourth inside it is
      refused, and a call once the window of all three has passed is
      granted again. */
  lemma ThreePerWindow(w: int, a: int, b: int, c: int, d: int, e: int)
    requires a <= b <= c <= d && d - a < w && c <= e - w
    ensures Replay(3, w, [a, b, c]).granted == [a, b, c]
    ensures Replay(3, w, [a, b, c, d]).granted == [a, b, c]
    ensures Replay(3, w, [a, b, c, d, e]).granted == [a, b, c, e]
  {
    FirstThree(w, a, b, c);
    FourthRefused(w, a, b, c, d);
    ReplayStep(3, w, [a, b, c, d], e);
    assert [a, b, c, d] + [e] == [a, b, c, d, e];
    PruneDropsAll([a, b, c], e - w);
  }
}
