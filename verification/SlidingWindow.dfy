/** Timestamps filtered by age, as both the breaker and its reset limiter do inline. */
module SlidingWindow {
  import opened Common

  /** The timestamps younger than `window` at `now`, in order. */
  function Recent(ts: seq<real>, now: real, window: real): (r: seq<real>)
    ensures |r| <= |ts|
  {
    if ts == [] then []
    else Recent(Front(ts), now, window) + (if now - Last(ts) < window then [Last(ts)] else [])
  }

  /** How many timestamps lie in the half-open interval [lo, hi). */
  function CountIn(ts: seq<real>, lo: real, hi: real): nat {
    if ts == [] then 0
    else CountIn(Front(ts), lo, hi) + (if lo <= Last(ts) < hi then 1 else 0)
  }

  lemma RecentAppend(ts: seq<real>, t: real, now: real, window: real)
    ensures Recent(ts + [t], now, window)
         == Recent(ts, now, window) + (if now - t < window then [t] else [])
  {
    assert Front(ts + [t]) == ts;
  }

  /** Pruning early and pruning again later is the same as pruning once, later. */
  lemma {:induction false} RecentAbsorbs(ts: seq<real>, early: real, late: real, window: real)
    requires early <= late
    ensures Recent(Recent(ts, early, window), late, window) == Recent(ts, late, window)
  {
    if ts != [] {
      RecentAbsorbs(Front(ts), early, late, window);
      var young := Recent(Front(ts), early, window);
      if early - Last(ts) < window {
        RecentAppend(young, Last(ts), late, window);
      } else {
        assert Recent(ts, early, window) == young;
      }
    }
  }

  /** Exactly the young entries are kept, each as often as it was listed. */
  lemma {:induction false} RecentAreTheYoung(ts: seq<real>, now: real, window: real, t: real)
    ensures multiset(Recent(ts, now, window))[t] == if now - t < window then multiset(ts)[t] else 0
  {
    if ts != [] {
      RecentAreTheYoung(Front(ts), now, window, t);
      assert ts == Front(ts) + [Last(ts)];
    }
  }

  /** Once the oldest entry has expired the list gets strictly shorter. */
  lemma {:induction false} ExpiredHeadShortens(ts: seq<real>, now: real, window: real)
    requires ts != [] && now - ts[0] >= window
    ensures |Recent(ts, now, window)| < |ts|
  {
    if |ts| > 1 {
      ExpiredHeadShortens(Front(ts), now, window);
    }
  }

  /** An interval of the window's length ending after `now` sees only young entries. */
  lemma {:induction false} CountInAtMostRecent(ts: seq<real>, lo: real, hi: real, now: real, window: real)
    requires now - lo < window
    ensures CountIn(ts, lo, hi) <= |Recent(ts, now, window)|
  {
    if ts != [] {
      CountInAtMostRecent(Front(ts), lo, hi, now, window);
    }
  }
}
