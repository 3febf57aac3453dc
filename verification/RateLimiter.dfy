/** The per-key sliding-window limiter in front of the manual breaker reset. */
module RateLimiter {
  import opened Common
  import opened SlidingWindow

  datatype Config = Config(max: int, window: int)

  /** `IndexError` is the exception of reading the oldest entry of an empty list. */
  datatype Decision = Allowed | Denied(retryAfter: int) | IndexError

  datatype Call = Call(key: string, now: real)

  type Attempts = map<string, seq<real>>

  /** The check on one key's list: the list it stores back and what it decides. */
  function CheckList(cfg: Config, stored: seq<real>, now: real): (seq<real>, Decision) {
    var live := Recent(stored, now, cfg.window as real);
    if |live| >= cfg.max then
      if live == [] then (stored, IndexError)
      else (live, Denied(Max(1, Truncate(cfg.window as real - (now - live[0])) + 1)))
    else (live + [now], Allowed)
  }

  function Stored(attempts: Attempts, key: string): seq<real> {
    if key in attempts then attempts[key] else []
  }

  /** One locked check: the dictionary it leaves behind and what it decides. */
  function Check(cfg: Config, attempts: Attempts, c: Call): (Attempts, Decision) {
    var (kept, d) := CheckList(cfg, Stored(attempts, c.key), c.now);
    (if d.IndexError? then attempts else attempts[c.key := kept], d)
  }

  function Run(cfg: Config, calls: seq<Call>): Attempts {
    if calls == [] then map[] else Check(cfg, Run(cfg, Front(calls)), Last(calls)).0
  }

  function Decide(cfg: Config, calls: seq<Call>, c: Call): Decision {
    Check(cfg, Run(cfg, calls), c).1
  }

  /** The dictionary of a limiter, updated in place. */
  class ResetLimiter {
    const cfg: Config
    var attempts: Attempts

    constructor (cfg: Config)
      ensures this.cfg == cfg && attempts == Run(cfg, [])
    {
      this.cfg := cfg;
      attempts := map[];
    }

    method RateCheck(key: string, now: real) returns (d: Decision)
      modifies this
      ensures (attempts, d) == Check(cfg, old(attempts), Call(key, now))
    {
      var timestamps := if key in attempts then attempts[key] else [];
      timestamps := Recent(timestamps, now, cfg.window as real);
      if |timestamps| >= cfg.max {
        if timestamps == [] {
          return IndexError;
        }
        var remaining := cfg.window as real - (now - timestamps[0]);
        attempts := attempts[key := timestamps];
        return Denied(Max(1, Truncate(remaining) + 1));
      }
      timestamps := timestamps + [now];
      attempts := attempts[key := timestamps];
      return Allowed;
    }
  }

  // ---- One key on its own, with unbounded memory beside the pruned list ----

  /** The call times of one key. */
  function TimesOf(calls: seq<Call>, key: string): seq<real> {
    if calls == [] then []
    else TimesOf(Front(calls), key) + (if Last(calls).key == key then [Last(calls).now] else [])
  }

  function KeyList(cfg: Config, times: seq<real>): seq<real> {
    if times == [] then [] else CheckList(cfg, KeyList(cfg, Front(times)), Last(times)).0
  }

  /** Every time, ever, at which a call of this key was let through. */
  function Admitted(cfg: Config, times: seq<real>): seq<real> {
    if times == [] then []
    else
      Admitted(cfg, Front(times))
      + (if CheckList(cfg, KeyList(cfg, Front(times)), Last(times)).1.Allowed? then [Last(times)] else [])
  }

  ghost predicate Nondecreasing(times: seq<real>) {
    forall i, j :: 0 <= i < j < |times| ==> times[i] <= times[j]
  }

  ghost predicate NotBefore(times: seq<real>, now: real) {
    times != [] ==> Last(times) <= now
  }

  lemma NondecreasingFront(times: seq<real>)
    requires times != [] && Nondecreasing(times)
    ensures Nondecreasing(Front(times)) && NotBefore(Front(times), Last(times))
  {
  }

  lemma OwnCallOnly(cfg: Config, attempts: Attempts, c: Call, key: string)
    ensures Stored(Check(cfg, attempts, c).0, key)
         == if c.key == key then CheckList(cfg, Stored(attempts, key), c.now).0 else Stored(attempts, key)
  {
  }

  /** Keys do not interfere: the dictionary holds for each key what that key's calls
      alone would have left. */
  lemma {:induction false} KeysAreIndependent(cfg: Config, calls: seq<Call>, key: string)
    ensures Stored(Run(cfg, calls), key) == KeyList(cfg, TimesOf(calls, key))
  {
    if calls != [] {
      KeysAreIndependent(cfg, Front(calls), key);
      OwnCallOnly(cfg, Run(cfg, Front(calls)), Last(calls), key);
      var times := TimesOf(Front(calls), key);
      if Last(calls).key == key {
        assert Front(times + [Last(calls).now]) == times;
      } else {
        assert times + [] == times;
      }
    }
  }

  /** One check keeps a pruned list in step with the full history it stands for. */
  lemma CheckKeepsStep(cfg: Config, stored: seq<real>, history: seq<real>, at: real, now: real)
    requires at <= now
    requires Recent(stored, at, cfg.window as real) == Recent(history, at, cfg.window as real)
    requires Recent(stored, now, cfg.window as real) == Recent(history, now, cfg.window as real)
    ensures
      var (kept, d) := CheckList(cfg, stored, at);
      Recent(kept, now, cfg.window as real)
        == Recent(if d.Allowed? then history + [at] else history, now, cfg.window as real)
  {
    var w := cfg.window as real;
    RecentAbsorbs(stored, at, now, w);
    RecentAppend(Recent(stored, at, w), at, now, w);
    RecentAppend(history, at, now, w);
  }

  /** The pruned list stands for the whole history: from the last call on, both show
      the same young entries. */
  lemma {:induction false} ListStandsForHistory(cfg: Config, times: seq<real>, now: real)
    requires Nondecreasing(times) && NotBefore(times, now)
    ensures Recent(KeyList(cfg, times), now, cfg.window as real)
         == Recent(Admitted(cfg, times), now, cfg.window as real)
  {
    if times != [] {
      NondecreasingFront(times);
      ListStandsForHistory(cfg, Front(times), now);
      ListStandsForHistory(cfg, Front(times), Last(times));
      CheckKeepsStep(cfg, KeyList(cfg, Front(times)), Admitted(cfg, Front(times)), Last(times), now);
      assert Admitted(cfg, Front(times)) + [] == Admitted(cfg, Front(times));
    }
  }

  lemma {:induction false} ListBounded(cfg: Config, times: seq<real>)
    ensures |KeyList(cfg, times)| <= Max(0, cfg.max)
  {
    if times != [] {
      ListBounded(cfg, Front(times));
    }
  }

  lemma {:induction false} KeyWindowBound(cfg: Config, times: seq<real>, lo: real)
    requires Nondecreasing(times)
    ensures CountIn(Admitted(cfg, times), lo, lo + cfg.window as real) <= Max(0, cfg.max)
  {
    if times != [] {
      NondecreasingFront(times);
      KeyWindowBound(cfg, Front(times), lo);
      var now, w := Last(times), cfg.window as real;
      var history := Admitted(cfg, Front(times));
      ListStandsForHistory(cfg, Front(times), now);
      assert Front(history + [now]) == history;
      assert history + [] == history;
      if lo <= now < lo + w {
        CountInAtMostRecent(history, lo, lo + w, now, w);
      }
    }
  }

  lemma KeyRetrySuffices(cfg: Config, times: seq<real>, now: real, later: seq<real>, retry: real)
    requires Nondecreasing(times + [now] + later) && NotBefore(times + [now] + later, retry)
    requires CheckList(cfg, KeyList(cfg, times), now).1.Denied?
    requires Admitted(cfg, times + [now] + later) == Admitted(cfg, times)
    requires retry >= now + CheckList(cfg, KeyList(cfg, times), now).1.retryAfter as real
    ensures CheckList(cfg, KeyList(cfg, times + [now] + later), retry).1 == Allowed
  {
    var w := cfg.window as real;
    var all := times + [now] + later;
    assert all[..|times|] == times && all[|times|] == now;
    assert Nondecreasing(times) && NotBefore(times, now) && now <= Last(all) <= retry;
    ListStandsForHistory(cfg, times, now);
    ListStandsForHistory(cfg, all, retry);
    ListBounded(cfg, times);
    var live := Recent(Admitted(cfg, times), now, w);
    RecentAbsorbs(Admitted(cfg, times), now, retry, w);
    ExpiredHeadShortens(live, retry, w);
  }

  lemma FrontBelowLast(ts: seq<real>)
    requires Nondecreasing(ts) && ts != []
    ensures forall t :: t in Front(ts) ==> t in ts && t <= Last(ts)
  {
  }

  lemma NondecreasingSnoc(ts: seq<real>, t: real)
    requires Nondecreasing(ts) && forall x :: x in ts ==> x <= t
    ensures Nondecreasing(ts + [t])
  {
    assert forall i :: 0 <= i < |ts| ==> ts[i] in ts;
  }

  lemma {:induction false} RecentStaysOrdered(ts: seq<real>, now: real, window: real)
    requires Nondecreasing(ts)
    ensures Nondecreasing(Recent(ts, now, window))
    ensures forall t :: t in Recent(ts, now, window) ==> t in ts
  {
    if ts != [] {
      NondecreasingFront(ts);
      FrontBelowLast(ts);
      RecentStaysOrdered(Front(ts), now, window);
      NondecreasingSnoc(Recent(Front(ts), now, window), Last(ts));
    }
  }

  lemma {:induction false} RecentAreYoung(ts: seq<real>, now: real, window: real, i: nat)
    requires i < |Recent(ts, now, window)|
    ensures now - Recent(ts, now, window)[i] < window
  {
    if i < |Recent(Front(ts), now, window)| {
      RecentAreYoung(Front(ts), now, window, i);
    }
  }

  lemma {:induction false} AdmittedInOrder(cfg: Config, times: seq<real>)
    requires Nondecreasing(times)
    ensures Nondecreasing(Admitted(cfg, times)) && forall t :: t in Admitted(cfg, times) ==> t in times
  {
    if times != [] {
      NondecreasingFront(times);
      FrontBelowLast(times);
      AdmittedInOrder(cfg, Front(times));
      NondecreasingSnoc(Admitted(cfg, Front(times)), Last(times));
      assert Admitted(cfg, Front(times)) + [] == Admitted(cfg, Front(times));
    }
  }

  lemma {:induction false} AdmittedGrows(cfg: Config, times: seq<real>, more: seq<real>, now: real, window: real)
    ensures |Recent(Admitted(cfg, times), now, window)| <= |Recent(Admitted(cfg, times + more), now, window)|
  {
    if more == [] {
      assert times + more == times;
    } else {
      AdmittedGrows(cfg, times, Front(more), now, window);
      var all := times + more;
      assert Front(all) == times + Front(more);
      var before := Admitted(cfg, Front(all));
      RecentAppend(before, Last(all), now, window);
      assert before + [] == before;
    }
  }

  lemma {:induction false} AllYoung(ts: seq<real>, now: real, window: real)
    requires forall i :: 0 <= i < |ts| ==> now - ts[i] < window
    ensures Recent(ts, now, window) == ts
  {
    if ts != [] {
      AllYoung(Front(ts), now, window);
    }
  }

  lemma WaitEndsInWindow(window: real, now: real, oldest: real, retry: real)
    requires now - oldest < window
    requires retry < now + Max(1, Truncate(window - (now - oldest)) + 1) as real - 1.0
    ensures retry - oldest < window
  {
  }

  lemma OldestDecides(live: seq<real>, now: real, window: real)
    requires Nondecreasing(live) && live != [] && now - live[0] < window
    ensures Recent(live, now, window) == live
  {
    forall i | 0 <= i < |live| ensures now - live[i] < window {
      assert i > 0 ==> live[0] <= live[i];
    }
    AllYoung(live, now, window);
  }

  /** A denial at `now` leaves as many entries in the window until a second before the
      wait is over. */
  lemma DenialLasts(history: seq<real>, now: real, retry: real, w: real)
    requires Nondecreasing(history) && now <= retry && Recent(history, now, w) != []
    requires retry < now + Max(1, Truncate(w - (now - Recent(history, now, w)[0])) + 1) as real - 1.0
    ensures Recent(history, retry, w) == Recent(history, now, w)
  {
    var live := Recent(history, now, w);
    RecentStaysOrdered(history, now, w);
    RecentAreYoung(history, now, w, 0);
    WaitEndsInWindow(w, now, live[0], retry);
    OldestDecides(live, retry, w);
    RecentAbsorbs(history, now, retry, w);
  }

  /** This decision is the one for that many young admissions. */
  predicate Fits(cfg: Config, history: seq<real>, now: real, d: Decision) {
    var live := Recent(history, now, cfg.window as real);
    && (d.Allowed? <==> |live| < cfg.max)
    && (d.Denied? ==>
          live != [] && d.retryAfter == Max(1, Truncate(cfg.window as real - (now - live[0])) + 1))
  }

  lemma DecisionFits(cfg: Config, times: seq<real>, now: real)
    requires Nondecreasing(times) && NotBefore(times, now)
    ensures Fits(cfg, Admitted(cfg, times), now, CheckList(cfg, KeyList(cfg, times), now).1)
  {
    ListStandsForHistory(cfg, times, now);
  }

  lemma TightDecision(
      cfg: Config, before: seq<real>, after: seq<real>, now: real, retry: real, d: Decision, e: Decision)
    requires Nondecreasing(before) && now <= retry && Fits(cfg, before, now, d) && Fits(cfg, after, retry, e)
    requires |Recent(before, retry, cfg.window as real)| <= |Recent(after, retry, cfg.window as real)|
    requires d.Denied? && retry < now + d.retryAfter as real - 1.0
    ensures !e.Allowed?
  {
    DenialLasts(before, now, retry, cfg.window as real);
  }

  lemma SplitsAtCall(times: seq<real>, now: real, later: seq<real>, retry: real)
    requires Nondecreasing(times + [now] + later) && NotBefore(times + [now] + later, retry)
    ensures Nondecreasing(times) && NotBefore(times, now) && now <= retry
    ensures times + ([now] + later) == times + [now] + later
  {
    var all := times + [now] + later;
    assert all[..|times|] == times && all[|times|] == now;
  }

  lemma KeyRetryTight(
      cfg: Config, times: seq<real>, now: real, more: seq<real>, all: seq<real>, retry: real)
    requires Nondecreasing(times) && NotBefore(times, now) && now <= retry
    requires all == times + more && Nondecreasing(all) && NotBefore(all, retry)
    requires CheckList(cfg, KeyList(cfg, times), now).1.Denied?
    requires retry < now + CheckList(cfg, KeyList(cfg, times), now).1.retryAfter as real - 1.0
    ensures !CheckList(cfg, KeyList(cfg, all), retry).1.Allowed?
  {
    DecisionFits(cfg, times, now);
    DecisionFits(cfg, all, retry);
    AdmittedInOrder(cfg, times);
    AdmittedGrows(cfg, times, more, retry, cfg.window as real);
    TightDecision(cfg, Admitted(cfg, times), Admitted(cfg, all), now, retry,
                  CheckList(cfg, KeyList(cfg, times), now).1, CheckList(cfg, KeyList(cfg, all), retry).1);
  }

  lemma KeyListIsYoung(cfg: Config, times: seq<real>)
    requires Nondecreasing(times) && times != [] && cfg.window > 0 && cfg.max > 0
    ensures KeyList(cfg, times) == Recent(Admitted(cfg, times), Last(times), cfg.window as real)
  {
    var now, w, before := Last(times), cfg.window as real, Admitted(cfg, Front(times));
    NondecreasingFront(times);
    ListStandsForHistory(cfg, Front(times), now);
    RecentAppend(before, now, now, w);
    assert before + [] == before;
  }

  // ---- The dictionary, whatever keys its calls carry ----

  /** The times at which the limiter as a whole let calls of this key through. */
  function LetThrough(cfg: Config, calls: seq<Call>, key: string): seq<real> {
    if calls == [] then []
    else
      var before := LetThrough(cfg, Front(calls), key);
      var c := Last(calls);
      if c.key == key && Decide(cfg, Front(calls), c).Allowed? then before + [c.now] else before
  }

  lemma {:induction false} LetThroughIsPerKey(cfg: Config, calls: seq<Call>, key: string)
    ensures LetThrough(cfg, calls, key) == Admitted(cfg, TimesOf(calls, key))
  {
    if calls != [] {
      LetThroughIsPerKey(cfg, Front(calls), key);
      KeysAreIndependent(cfg, Front(calls), key);
      OwnCallOnly(cfg, Run(cfg, Front(calls)), Last(calls), key);
      var times := TimesOf(Front(calls), key);
      if Last(calls).key == key {
        assert Front(times + [Last(calls).now]) == times;
      } else {
        assert times + [] == times;
      }
    }
  }

  /** A call is let through exactly when fewer than `max` calls of its key were in the
      window that ends with it: the pruned lists play no part in it. */
  lemma AdmitsIffRoom(cfg: Config, calls: seq<Call>, c: Call)
    requires Nondecreasing(TimesOf(calls, c.key)) && NotBefore(TimesOf(calls, c.key), c.now)
    ensures Decide(cfg, calls, c).Allowed?
       <==> |Recent(LetThrough(cfg, calls, c.key), c.now, cfg.window as real)| < cfg.max
  {
    LetThroughIsPerKey(cfg, calls, c.key);
    KeysAreIndependent(cfg, calls, c.key);
    ListStandsForHistory(cfg, TimesOf(calls, c.key), c.now);
  }

  /** Whatever half-open interval one looks at, as long as the window, at most `max`
      calls of a key were let through in it. */
  lemma WindowBound(cfg: Config, calls: seq<Call>, key: string, lo: real)
    requires Nondecreasing(TimesOf(calls, key))
    ensures CountIn(LetThrough(cfg, calls, key), lo, lo + cfg.window as real) <= Max(0, cfg.max)
  {
    LetThroughIsPerKey(cfg, calls, key);
    KeyWindowBound(cfg, TimesOf(calls, key), lo);
  }

  lemma {:induction false} TimesOfConcat(a: seq<Call>, b: seq<Call>, key: string)
    ensures TimesOf(a + b, key) == TimesOf(a, key) + TimesOf(b, key)
  {
    if b == [] {
      assert a + b == a;
    } else {
      assert Front(a + b) == a + Front(b);
      TimesOfConcat(a, Front(b), key);
    }
  }

  /** The advertised wait is long enough: if nobody else of that key is let through
      meanwhile, a retry `retryAfter` seconds later is, whatever else was called. */
  lemma RetryAfterSuffices(cfg: Config, calls: seq<Call>, denied: Call, later: seq<Call>, retry: Call)
    requires denied.key == retry.key
    requires Nondecreasing(TimesOf(calls + [denied] + later, retry.key))
    requires NotBefore(TimesOf(calls + [denied] + later, retry.key), retry.now)
    ensures
      && Decide(cfg, calls, denied).Denied?
      && LetThrough(cfg, calls + [denied] + later, retry.key) == LetThrough(cfg, calls, retry.key)
      && retry.now >= denied.now + Decide(cfg, calls, denied).retryAfter as real
      ==> Decide(cfg, calls + [denied] + later, retry) == Allowed
  {
    var key := retry.key;
    TimesOfConcat(calls + [denied], later, key);
    assert Front(calls + [denied]) == calls;
    LetThroughIsPerKey(cfg, calls, key);
    LetThroughIsPerKey(cfg, calls + [denied] + later, key);
    KeysAreIndependent(cfg, calls, key);
    KeysAreIndependent(cfg, calls + [denied] + later, key);
    if && Decide(cfg, calls, denied).Denied?
       && LetThrough(cfg, calls + [denied] + later, key) == LetThrough(cfg, calls, key)
       && retry.now >= denied.now + Decide(cfg, calls, denied).retryAfter as real {
      KeyRetrySuffices(cfg, TimesOf(calls, key), denied.now, TimesOf(later, key), retry.now);
    }
  }

  /** And it is not too long: until a second before it is over every retry is turned away,
      whatever was called meanwhile. */
  lemma RetryAfterTight(cfg: Config, calls: seq<Call>, denied: Call, later: seq<Call>, retry: Call)
    requires denied.key == retry.key
    requires Nondecreasing(TimesOf(calls + [denied] + later, retry.key))
    requires NotBefore(TimesOf(calls + [denied] + later, retry.key), retry.now)
    ensures
      && Decide(cfg, calls, denied).Denied?
      && retry.now < denied.now + Decide(cfg, calls, denied).retryAfter as real - 1.0
      ==> !Decide(cfg, calls + [denied] + later, retry).Allowed?
  {
    var key := retry.key;
    TimesOfConcat(calls + [denied], later, key);
    assert Front(calls + [denied]) == calls;
    KeysAreIndependent(cfg, calls, key);
    KeysAreIndependent(cfg, calls + [denied] + later, key);
    if && Decide(cfg, calls, denied).Denied?
       && retry.now < denied.now + Decide(cfg, calls, denied).retryAfter as real - 1.0 {
      var times, rest := TimesOf(calls, key), TimesOf(later, key);
      SplitsAtCall(times, denied.now, rest, retry.now);
      KeyRetryTight(cfg, times, denied.now, [denied.now] + rest, times + [denied.now] + rest, retry.now);
    }
  }

  /** After a call, its key's entry is exactly what was let through and is still young. */
  lemma EntryIsYoungHistory(cfg: Config, calls: seq<Call>, key: string)
    requires Nondecreasing(TimesOf(calls, key)) && TimesOf(calls, key) != []
    requires cfg.window > 0 && cfg.max > 0
    ensures Stored(Run(cfg, calls), key)
         == Recent(LetThrough(cfg, calls, key), Last(TimesOf(calls, key)), cfg.window as real)
  {
    LetThroughIsPerKey(cfg, calls, key);
    KeysAreIndependent(cfg, calls, key);
    KeyListIsYoung(cfg, TimesOf(calls, key));
  }

  /** The check can only crash on a non-positive limit, and then it always does. */
  lemma CrashesIffNoLimit(cfg: Config, calls: seq<Call>, c: Call)
    ensures Decide(cfg, calls, c).IndexError? <==> cfg.max <= 0
  {
    KeysAreIndependent(cfg, calls, c.key);
    ListBounded(cfg, TimesOf(calls, c.key));
  }
}
