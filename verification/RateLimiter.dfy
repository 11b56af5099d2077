/** Counting moments in an interval. */
module Moments {
  ghost predicate Ascending(s: seq<real>) {
    forall i, j :: 0 <= i < j < |s| ==> s[i] <= s[j]
  }

  /** How many of the moments lie in the closed interval from `lo` to `hi`. */
  function CountIn(s: seq<real>, lo: real, hi: real): (n: nat)
    ensures n <= |s|
  {
    if s == [] then 0
    else CountIn(s[..|s| - 1], lo, hi) + (if lo <= s[|s| - 1] <= hi then 1 else 0)
  }

  /** With everything before `k` too early and everything from `k` on inside, the count is the length of the rest. */
  lemma {:induction false} CountFrom(s: seq<real>, k: nat, lo: real, hi: real)
    requires k <= |s|
    requires forall i :: 0 <= i < k ==> s[i] < lo
    requires forall i :: k <= i < |s| ==> lo <= s[i] <= hi
    ensures CountIn(s, lo, hi) == |s| - k
  {
    if |s| > k {
      CountFrom(s[..|s| - 1], k, lo, hi);
    } else if s != [] {
      CountFrom(s[..|s| - 1], k - 1, lo, hi);
    }
  }

  lemma {:induction false} CountAtMost(s: seq<real>, k: nat, lo: real, hi: real)
    requires k <= |s| && forall i :: 0 <= i < k ==> s[i] < lo
    ensures CountIn(s, lo, hi) <= |s| - k
  {
    if |s| > k {
      CountAtMost(s[..|s| - 1], k, lo, hi);
    } else if s != [] {
      CountAtMost(s[..|s| - 1], k - 1, lo, hi);
    }
  }

  /** Any moment and one `max` or more places later are more than `window` apart. */
  ghost predicate Spread(s: seq<real>, max: nat, window: real) {
    forall i, j :: 0 <= i < |s| && 0 <= j < |s| && j - i >= max ==> s[j] - s[i] > window
  }

  /** A further moment, when fewer than `max` lie within the window before it, keeps them spread. */
  lemma AppendSpreads(s: seq<real>, gone: nat, now: real, max: nat, window: real)
    requires Ascending(s) && Spread(s, max, window)
    requires gone <= |s| && |s| - gone < max
    requires forall i :: 0 <= i < |s| ==> s[i] <= now
    requires forall i :: 0 <= i < gone ==> now - s[i] > window
    ensures Ascending(s + [now]) && Spread(s + [now], max, window)
  {
    var longer := s + [now];
    assert forall i :: 0 <= i < |s| ==> longer[i] == s[i];
  }

  /** Then no closed interval of length `window`, wherever it starts, holds more than `max` of them. */
  lemma {:induction false} IntervalHoldsAtMost(s: seq<real>, max: nat, window: real, start: real)
    requires Ascending(s) && Spread(s, max, window)
    ensures CountIn(s, start, start + window) <= max
  {
    var n := |s|;
    if n > max {
      if start <= s[n - 1] <= start + window {
        assert forall i :: 0 <= i < n - max ==> s[n - 1] - s[i] > window;
        CountAtMost(s, n - max, start, start + window);
      } else {
        IntervalHoldsAtMost(s[..n - 1], max, window, start);
      }
    }
  }
}

/** The sliding-window limit on messages. */
module RateLimiters {
  import opened Moments

  ghost predicate IsTail(t: seq<real>, s: seq<real>) {
    |t| <= |s| && forall i :: 0 <= i < |t| ==> t[i] == s[|s| - |t| + i]
  }

  /** The queue is the tail of the history; what is no longer queued has left the window for good. */
  ghost predicate Tracks(events: seq<real>, history: seq<real>, latest: real, max: nat, window: real) {
    && IsTail(events, history)
    && Ascending(history) && Spread(history, max, window)
    && (forall i :: 0 <= i < |history| ==> history[i] <= latest)
    && (forall i :: 0 <= i < |history| - |events| ==> latest - history[i] > window)
  }

  /** The loop that discards what has left the window: the result starts at the first moment still inside. */
  method DropOld(events: seq<real>, now: real, window: real) returns (rest: seq<real>)
    ensures IsTail(rest, events)
    ensures forall i :: 0 <= i < |events| - |rest| ==> now - events[i] > window
    ensures rest != [] ==> now - rest[0] <= window
  {
    rest := events;
    while rest != [] && now - rest[0] > window
      invariant IsTail(rest, events)
      invariant forall i :: 0 <= i < |events| - |rest| ==> now - events[i] > window
    {
      rest := rest[1..];
    }
  }

  /** What is left after discarding is exactly what the closed window holds. */
  lemma DroppedTracks(events: seq<real>, rest: seq<real>, history: seq<real>, latest: real, now: real, max: nat,
                      window: real)
    requires Tracks(events, history, latest, max, window) && latest <= now
    requires IsTail(rest, events)
    requires forall i :: 0 <= i < |events| - |rest| ==> now - events[i] > window
    requires rest != [] ==> now - rest[0] <= window
    ensures Tracks(rest, history, now, max, window)
    ensures CountIn(history, now - window, now) == |rest|
  {
    var start, gone := |history| - |events|, |history| - |rest|;
    forall i | 0 <= i < gone ensures now - history[i] > window {
      if i >= start {
        assert events[i - start] == history[i];
      }
    }
    forall i | gone <= i < |history| ensures now - history[i] <= window {
      assert rest[0] == history[gone] <= history[i];
    }
    CountFrom(history, gone, now - window, now);
  }

  lemma AllowedTracks(recent: seq<real>, history: seq<real>, now: real, max: nat, window: real)
    requires Tracks(recent, history, now, max, window) && |recent| < max && window >= 0.0
    ensures Tracks(recent + [now], history + [now], now, max, window)
  {
    AppendSpreads(history, |history| - |recent|, now, max, window);
  }

  class RateLimiter {
    const maxEvents: nat
    const window: real
    var events: seq<real>
    /** Every moment at which a call was allowed, and the latest moment seen. */
    ghost var allowed: seq<real>
    ghost var latest: real

    ghost predicate Valid()
      reads this
    {
      Tracks(events, allowed, latest, maxEvents, window)
    }

    constructor (maxEvents: nat, window: real, start: real)
      ensures Valid() && allowed == [] && latest == start && this.maxEvents == maxEvents && this.window == window
    {
      this.maxEvents, this.window := maxEvents, window;
      events, allowed, latest := [], [], start;
    }

    /**
     Allowed exactly when fewer than the maximum were allowed in the closed window that ends now; so the moments
     allowed stay spread out, and no interval of that length ever holds more than the maximum.
    */
    method Allow(now: real) returns (ok: bool)
      requires Valid() && latest <= now && window >= 0.0
      modifies this
      ensures Valid() && latest == now
      ensures ok <==> CountIn(old(allowed), now - window, now) < maxEvents
      ensures allowed == if ok then old(allowed) + [now] else old(allowed)
    {
      var recent := DropOld(events, now, window);
      DroppedTracks(events, recent, allowed, latest, now, maxEvents, window);
      latest := now;
      events := recent;
      if |events| >= maxEvents {
        return false;
      }
      AllowedTracks(recent, allowed, now, maxEvents, window);
      events := events + [now];
      allowed := allowed + [now];
      return true;
    }
  }
}
