/** Rank percentiles and the verdicts drawn from them, and the one-pass drop scan. */
module BenchmarkStats {
  import opened Common

  /** A measurement in milliseconds; a failed setup is recorded as infinity. */
  datatype Sample = Finite(ms: real) | Infinite

  predicate Le(a: Sample, b: Sample) {
    b.Infinite? || (a.Finite? && a.ms <= b.ms)
  }

  ghost predicate Sorted(xs: seq<Sample>) {
    forall i, j :: 0 <= i < j < |xs| ==> Le(xs[i], xs[j])
  }

  function SortedInsert(x: Sample, xs: seq<Sample>): seq<Sample> {
    if xs == [] || Le(x, xs[0]) then [x] + xs else [xs[0]] + SortedInsert(x, xs[1..])
  }

  /** Python's `sorted`. */
  function Sort(xs: seq<Sample>): seq<Sample> {
    if xs == [] then [] else SortedInsert(xs[0], Sort(xs[1..]))
  }

  lemma {:induction false} SortedInsertKeeps(x: Sample, xs: seq<Sample>)
    ensures multiset(SortedInsert(x, xs)) == multiset(xs) + multiset{x}
  {
    if xs != [] {
      assert xs == [xs[0]] + xs[1..];
      if !Le(x, xs[0]) {
        SortedInsertKeeps(x, xs[1..]);
      }
    }
  }

  lemma {:induction false} SortedInsertSorts(x: Sample, xs: seq<Sample>)
    requires Sorted(xs)
    ensures Sorted(SortedInsert(x, xs))
  {
    if xs != [] && !Le(x, xs[0]) {
      SortedInsertSorts(x, xs[1..]);
      var rest := SortedInsert(x, xs[1..]);
      SortedInsertKeeps(x, xs[1..]);
      forall y | y in rest ensures Le(xs[0], y) {
        assert y in multiset(rest);
      }
      SortedCons(xs[0], rest);
    }
  }

  lemma SortedCons(x: Sample, xs: seq<Sample>)
    requires Sorted(xs) && forall y :: y in xs ==> Le(x, y)
    ensures Sorted([x] + xs)
  {
  }

  /** The result has every sample as often as before ... */
  lemma {:induction false} SortKeeps(xs: seq<Sample>)
    ensures multiset(Sort(xs)) == multiset(xs) && |Sort(xs)| == |xs|
  {
    if xs != [] {
      SortKeeps(xs[1..]);
      SortedInsertKeeps(xs[0], Sort(xs[1..]));
      assert xs == [xs[0]] + xs[1..];
    }
    SameLength(Sort(xs), xs);
  }

  /** ... and in order. */
  lemma {:induction false} SortSorts(xs: seq<Sample>)
    ensures Sorted(Sort(xs)) && multiset(Sort(xs)) == multiset(xs) && |Sort(xs)| == |xs|
  {
    SortKeeps(xs);
    if xs != [] {
      SortSorts(xs[1..]);
      SortedInsertSorts(xs[0], Sort(xs[1..]));
    }
  }

  // ---- Percentiles ----

  datatype Stats = Stats(min: Sample, max: Sample, p50: Sample, p95: Sample, p99: Sample)

  /** `int(n * p)` for a percentage p, in exact arithmetic. */
  function Rank(n: nat, percent: nat): (k: nat)
    requires n > 0 && percent < 100
    ensures k < n
  {
    n * percent / 100
  }

  /** The guard against an index past the end is never needed. */
  lemma RanksAreIndices(n: nat)
    requires n > 0
    ensures n * 50 / 100 == Rank(n, 50)
    ensures Min(n * 95 / 100, n - 1) == Rank(n, 95) && Min(n * 99 / 100, n - 1) == Rank(n, 99)
  {
  }

  function StatsOf(xs: seq<Sample>): Stats
    requires xs != []
  {
    SortSorts(xs);
    var s, n := Sort(xs), |xs|;
    Stats(s[0], s[n - 1], s[Rank(n, 50)], s[Rank(n, 95)], s[Rank(n, 99)])
  }

  /** `statistics.stdev`, under Python 3.11, on floats of which one is infinite. */
  predicate DeviationRaises(xs: seq<Sample>) {
    |xs| >= 2 && Infinite in xs
  }

  datatype Status = RUNNING | PASSED | FAILED

  class BenchmarkResult {
    var samples: seq<Sample>
    var min: Sample
    var max: Sample
    var p50: Sample
    var p95: Sample
    var p99: Sample
    var status: Status

    function View(): Stats
      reads this
    {
      Stats(min, max, p50, p95, p99)
    }

    constructor ()
      ensures samples == [] && View() == ZERO_STATS && status == RUNNING
    {
      samples, status := [], RUNNING;
      min, max, p50, p95, p99 := Finite(0.0), Finite(0.0), Finite(0.0), Finite(0.0), Finite(0.0);
    }

    /** The standard deviation is taken between the extremes and the percentiles. Over two
        or more samples, one of them infinite, it raises, and no percentile is set. */
    method ComputeStats() returns (raised: bool)
      modifies this
      ensures samples == old(samples) && status == old(status)
      ensures raised == DeviationRaises(samples)
      ensures View() ==
        if samples == [] then old(View())
        else if raised then old(View()).(min := StatsOf(samples).min, max := StatsOf(samples).max)
        else StatsOf(samples)
    {
      if samples == [] {
        return false;
      }
      var n := |samples|;
      var ordered := Sort(samples);
      SortSorts(samples);
      RanksAreIndices(n);
      min := ordered[0];
      max := ordered[n - 1];
      if n > 1 && Infinite in samples {
        return true;
      }
      p50 := ordered[n * 50 / 100];
      p95 := ordered[Min(n * 95 / 100, n - 1)];
      p99 := ordered[Min(n * 99 / 100, n - 1)];
      return false;
    }

    method Judge(limit: real)
      modifies this
      ensures samples == old(samples) && View() == old(View())
      ensures status == if Le(p95, Finite(limit)) then PASSED else FAILED
    {
      status := if Le(p95, Finite(limit)) then PASSED else FAILED;
    }
  }

  /** How many measurements exceed the limit. */
  function CountAbove(xs: seq<Sample>, limit: real): (k: nat)
    ensures k <= |xs|
  {
    if xs == [] then 0 else CountAbove(Front(xs), limit) + (if Le(Last(xs), Finite(limit)) then 0 else 1)
  }

  lemma {:induction false} CountAboveConcat(a: seq<Sample>, b: seq<Sample>, limit: real)
    ensures CountAbove(a + b, limit) == CountAbove(a, limit) + CountAbove(b, limit)
  {
    if b == [] {
      assert a + b == a;
    } else {
      assert Front(a + b) == a + Front(b);
      CountAboveConcat(a, Front(b), limit);
    }
  }

  lemma CountAboveOne(x: Sample, limit: real)
    ensures CountAbove([x], limit) == if Le(x, Finite(limit)) then 0 else 1
  {
    assert Front([x]) == [];
  }

  lemma {:induction false} CountAboveInsert(x: Sample, xs: seq<Sample>, limit: real)
    ensures CountAbove(SortedInsert(x, xs), limit) == CountAbove(xs, limit) + CountAbove([x], limit)
  {
    if xs == [] || Le(x, xs[0]) {
      CountAboveConcat([x], xs, limit);
    } else {
      CountAboveInsert(x, xs[1..], limit);
      CountAboveConcat([xs[0]], SortedInsert(x, xs[1..]), limit);
      CountAboveConcat([xs[0]], xs[1..], limit);
      assert xs == [xs[0]] + xs[1..];
    }
  }

  /** Sorting does not change how many samples exceed a limit. */
  lemma {:induction false} CountAboveSort(xs: seq<Sample>, limit: real)
    ensures CountAbove(Sort(xs), limit) == CountAbove(xs, limit)
  {
    if xs != [] {
      CountAboveSort(xs[1..], limit);
      CountAboveInsert(xs[0], Sort(xs[1..]), limit);
      CountAboveConcat([xs[0]], xs[1..], limit);
      assert xs == [xs[0]] + xs[1..];
    }
  }

  lemma {:induction false} CountExtremes(xs: seq<Sample>, limit: real)
    ensures (forall x :: x in xs ==> Le(x, Finite(limit))) ==> CountAbove(xs, limit) == 0
    ensures (forall x :: x in xs ==> !Le(x, Finite(limit))) ==> CountAbove(xs, limit) == |xs|
  {
    if xs != [] {
      CountExtremes(Front(xs), limit);
      assert xs == Front(xs) + [Last(xs)];
    }
  }

  lemma WithinUpTo(s: seq<Sample>, i: nat, limit: real)
    requires Sorted(s) && i < |s| && Le(s[i], Finite(limit))
    ensures CountAbove(s, limit) <= |s| - 1 - i
  {
    assert s == s[..i + 1] + s[i + 1..];
    CountAboveConcat(s[..i + 1], s[i + 1..], limit);
    forall x | x in s[..i + 1] ensures Le(x, Finite(limit)) {
      var k :| 0 <= k <= i && s[k] == x;
      SortedAt(s, k, i);
    }
    CountExtremes(s[..i + 1], limit);
  }

  lemma AboveFrom(s: seq<Sample>, i: nat, limit: real)
    requires Sorted(s) && i < |s| && !Le(s[i], Finite(limit))
    ensures CountAbove(s, limit) >= |s| - i
  {
    var rest := s[i..];
    forall x | x in rest ensures !Le(x, Finite(limit)) {
      var k :| 0 <= k < |rest| && rest[k] == x;
      SortedAt(s, i, i + k);
    }
    CountExtremes(rest, limit);
    CountAboveConcat(s[..i], rest, limit);
    assert s == s[..i] + rest;
  }

  /** In a sorted list, the i-th entry is within the limit exactly when at most the
      entries behind it exceed it. */
  lemma RankMeansCount(s: seq<Sample>, i: nat, limit: real)
    requires Sorted(s) && i < |s|
    ensures Le(s[i], Finite(limit)) <==> CountAbove(s, limit) <= |s| - 1 - i
  {
    if Le(s[i], Finite(limit)) {
      WithinUpTo(s, i, limit);
    } else {
      AboveFrom(s, i, limit);
    }
  }

  /** The p95 test on one or more samples, in any order: it passes exactly when fewer than
      one in twenty of them exceeds the limit. */
  lemma P95Verdict(xs: seq<Sample>, limit: real)
    requires xs != []
    ensures Le(StatsOf(xs).p95, Finite(limit)) <==> 20 * CountAbove(xs, limit) < |xs|
  {
    SortSorts(xs);
    CountAboveSort(xs, limit);
    RankMeansCount(Sort(xs), Rank(|xs|, 95), limit);
  }

  /** Likewise the median passes exactly when fewer than half of the samples exceed the
      limit, and p99 when fewer than one in a hundred does. */
  lemma P50AndP99Verdict(xs: seq<Sample>, limit: real)
    requires xs != []
    ensures Le(StatsOf(xs).p50, Finite(limit)) <==> 2 * CountAbove(xs, limit) < |xs|
    ensures Le(StatsOf(xs).p99, Finite(limit)) <==> 100 * CountAbove(xs, limit) < |xs|
  {
    SortSorts(xs);
    CountAboveSort(xs, limit);
    RankMeansCount(Sort(xs), Rank(|xs|, 50), limit);
    RankMeansCount(Sort(xs), Rank(|xs|, 99), limit);
  }

  lemma SortedMember(xs: seq<Sample>, i: nat)
    requires i < |Sort(xs)|
    ensures Sort(xs)[i] in xs
  {
    SortKeeps(xs);
    assert Sort(xs)[i] in multiset(Sort(xs));
  }

  lemma StatsAreSamples(xs: seq<Sample>)
    requires xs != []
    ensures
      var s := StatsOf(xs);
      s.min in xs && s.max in xs && s.p50 in xs && s.p95 in xs && s.p99 in xs
  {
    SortSorts(xs);
    var n := |xs|;
    SortedMember(xs, 0);
    SortedMember(xs, n - 1);
    SortedMember(xs, Rank(n, 50));
    SortedMember(xs, Rank(n, 95));
    SortedMember(xs, Rank(n, 99));
  }

  lemma StatsOrdered(xs: seq<Sample>)
    requires xs != []
    ensures
      var s := StatsOf(xs);
      Le(s.min, s.p50) && Le(s.p50, s.p95) && Le(s.p95, s.p99) && Le(s.p99, s.max)
  {
    SortSorts(xs);
    var s, n := Sort(xs), |xs|;
    SortedAt(s, 0, Rank(n, 50));
    SortedAt(s, Rank(n, 50), Rank(n, 95));
    SortedAt(s, Rank(n, 95), Rank(n, 99));
    SortedAt(s, Rank(n, 99), n - 1);
  }

  lemma SortedAt(s: seq<Sample>, i: nat, j: nat)
    requires Sorted(s) && i <= j < |s|
    ensures Le(s[i], s[j])
  {
  }

  lemma ExtremesBound(xs: seq<Sample>, x: Sample)
    requires x in xs
    ensures Le(StatsOf(xs).min, x) && Le(x, StatsOf(xs).max)
  {
    SortSorts(xs);
    assert x in multiset(Sort(xs));
    var k :| 0 <= k < |xs| && Sort(xs)[k] == x;
    SortedAt(Sort(xs), 0, k);
    SortedAt(Sort(xs), k, |xs| - 1);
  }

  // ---- The two runs that differ in what a failed measurement means ----

  /** One result per iteration; none where the measurement raised. */
  type Outcomes = seq<Option<real>>

  function Failures(os: Outcomes): nat {
    if os == [] then 0 else Failures(Front(os)) + (if Last(os).None? then 1 else 0)
  }

  function Over(os: Outcomes, limit: real): nat {
    if os == [] then 0
    else Over(Front(os), limit) + (if Last(os).Some? && Last(os).value > limit then 1 else 0)
  }

  function SetupSamples(os: Outcomes): (xs: seq<Sample>)
    ensures |xs| == |os|
  {
    if os == [] then []
    else SetupSamples(Front(os)) + [if Last(os).Some? then Finite(Last(os).value) else Infinite]
  }

  function PhotonSamples(os: Outcomes): seq<Sample> {
    if os == [] then []
    else PhotonSamples(Front(os)) + (if Last(os).Some? then [Finite(Last(os).value)] else [])
  }

  lemma {:induction false} SetupCounts(os: Outcomes, limit: real)
    ensures CountAbove(SetupSamples(os), limit) == Failures(os) + Over(os, limit)
  {
    if os != [] {
      SetupCounts(Front(os), limit);
      var x := if Last(os).Some? then Finite(Last(os).value) else Infinite;
      CountAboveConcat(SetupSamples(Front(os)), [x], limit);
      CountAboveOne(x, limit);
    }
  }

  lemma {:induction false} PhotonCounts(os: Outcomes, limit: real)
    ensures CountAbove(PhotonSamples(os), limit) == Over(os, limit)
    ensures |PhotonSamples(os)| + Failures(os) == |os|
  {
    if os != [] {
      PhotonCounts(Front(os), limit);
      if Last(os).Some? {
        CountAboveConcat(PhotonSamples(Front(os)), [Finite(Last(os).value)], limit);
        CountAboveOne(Finite(Last(os).value), limit);
      } else {
        assert PhotonSamples(Front(os)) + [] == PhotonSamples(Front(os));
      }
    }
  }

  /** How a run ends: with a verdict, or with an exception. */
  datatype Ending = Passed | Failed | Raised

  /** What a result with these samples is judged to be. */
  function Judged(xs: seq<Sample>, limit: real): Ending {
    if DeviationRaises(xs) then Raised
    else if Le(if xs == [] then Finite(0.0) else StatsOf(xs).p95, Finite(limit)) then Passed
    else Failed
  }

  lemma {:induction false} InfiniteIffFailure(os: Outcomes)
    ensures Infinite in SetupSamples(os) <==> Failures(os) > 0
    ensures Infinite !in PhotonSamples(os)
  {
    if os != [] {
      InfiniteIffFailure(Front(os));
    }
  }

  /** Setup time: one failed setup among two or more ends the run with an exception, however
      many succeeded; otherwise the p95 test decides, a single failed setup counting as
      over the limit. */
  lemma SetupEnding(os: Outcomes, limit: real)
    ensures Judged(SetupSamples(os), limit).Raised? <==> |os| >= 2 && Failures(os) > 0
    ensures os != [] && !Judged(SetupSamples(os), limit).Raised? ==>
      (Judged(SetupSamples(os), limit).Passed? <==> 20 * (Failures(os) + Over(os, limit)) < |os|)
    ensures os == [] ==> (Judged(SetupSamples(os), limit).Passed? <==> 0.0 <= limit)
  {
    InfiniteIffFailure(os);
    SetupCounts(os, limit);
    if os != [] {
      P95Verdict(SetupSamples(os), limit);
    }
  }

  /** Two setups, the second of which fails: no limit gives a verdict. */
  lemma FailedSetupRaises(limit: real)
    ensures Judged(SetupSamples([Some(1.0), None]), limit) == Raised
  {
    var os: Outcomes := [Some(1.0), None];
    SetupEnding(os, limit);
    assert Last(os).None?;
  }

  /** Input-to-photon: a failed measurement is left out, so that only the successful ones
      are judged - and a run in which every one fails passes any non-negative limit. */
  lemma PhotonEnding(os: Outcomes, limit: real)
    ensures !Judged(PhotonSamples(os), limit).Raised?
    ensures Failures(os) < |os| ==>
      (Judged(PhotonSamples(os), limit).Passed? <==> 20 * Over(os, limit) < |os| - Failures(os))
    ensures Failures(os) == |os| ==> (Judged(PhotonSamples(os), limit).Passed? <==> 0.0 <= limit)
  {
    InfiniteIffFailure(os);
    PhotonCounts(os, limit);
    if PhotonSamples(os) != [] {
      P95Verdict(PhotonSamples(os), limit);
    }
  }

  const ZERO_STATS := Stats(Finite(0.0), Finite(0.0), Finite(0.0), Finite(0.0), Finite(0.0))

  /** The end of either run: statistics, unless they raise, and the verdict on p95. */
  method Conclude(result: BenchmarkResult, limit: real) returns (ending: Ending)
    requires result.View() == ZERO_STATS
    modifies result
    ensures ending == Judged(old(result.samples), limit)
    ensures ending.Raised? ==> result.status == old(result.status)
    ensures !ending.Raised? ==> (result.status == PASSED <==> ending.Passed?)
  {
    var raised := result.ComputeStats();
    if raised {
      return Raised;
    }
    result.Judge(limit);
    return if result.status == PASSED then Passed else Failed;
  }

  method RunSetupTime(os: Outcomes, limit: real) returns (ending: Ending)
    ensures ending.Raised? <==> |os| >= 2 && Failures(os) > 0
    ensures os != [] && !ending.Raised? ==> (ending.Passed? <==> 20 * (Failures(os) + Over(os, limit)) < |os|)
    ensures os == [] ==> (ending.Passed? <==> 0.0 <= limit)
  {
    var result := new BenchmarkResult();
    for i := 0 to |os|
      invariant fresh(result) && result.samples == SetupSamples(os[..i]) && result.View() == ZERO_STATS
    {
      assert Front(os[..i + 1]) == os[..i];
      result.samples := result.samples + [if os[i].Some? then Finite(os[i].value) else Infinite];
    }
    assert os[..|os|] == os;
    SetupEnding(os, limit);
    ending := Conclude(result, limit);
  }

  method RunInputToPhoton(os: Outcomes, limit: real) returns (ending: Ending)
    ensures !ending.Raised?
    ensures Failures(os) < |os| ==> (ending.Passed? <==> 20 * Over(os, limit) < |os| - Failures(os))
    ensures Failures(os) == |os| ==> (ending.Passed? <==> 0.0 <= limit)
  {
    var result := new BenchmarkResult();
    for i := 0 to |os|
      invariant fresh(result) && result.samples == PhotonSamples(os[..i]) && result.View() == ZERO_STATS
    {
      assert Front(os[..i + 1]) == os[..i];
      if os[i].Some? {
        result.samples := result.samples + [Finite(os[i].value)];
      }
    }
    assert os[..|os|] == os;
    PhotonEnding(os, limit);
    ending := Conclude(result, limit);
  }

  // ---- The drop scan ----

  /** Python's `round`: to the nearest integer, halves to the even one. */
  function RoundHalfEven(x: real): (r: int)
    ensures r as real - 0.5 <= x <= r as real + 0.5
  {
    var f := x.Floor;
    var rest := x - f as real;
    if rest < 0.5 then f else if rest > 0.5 then f + 1 else if f % 2 == 0 then f else f + 1
  }

  predicate Oversized(gap: real, expected: real) {
    gap > expected * 1.5
  }

  /** Frames estimated lost in one gap: none unless it is oversized, then at least one. */
  function Drops(gap: real, expected: real): nat
    requires expected > 0.0
  {
    if Oversized(gap, expected) then Max(1, RoundHalfEven(gap / expected) - 1) else 0
  }

  /** The drops over the gaps from `i` up to `j`. */
  function DropsIn(gaps: seq<real>, expected: real, i: nat, j: nat): nat
    requires expected > 0.0 && i <= j <= |gaps|
  {
    if i == j then 0 else DropsIn(gaps, expected, i, j - 1) + Drops(gaps[j - 1], expected)
  }

  predicate Burst(gaps: seq<real>, expected: real, i: nat, j: nat)
    requires i <= j <= |gaps|
  {
    forall k :: i <= k < j ==> Oversized(gaps[k], expected)
  }

  lemma {:induction false} WiderBurstDropsMore(gaps: seq<real>, expected: real, wide: nat, narrow: nat, j: nat)
    requires expected > 0.0 && wide <= narrow <= j <= |gaps|
    ensures DropsIn(gaps, expected, narrow, j) <= DropsIn(gaps, expected, wide, j)
  {
    if narrow < j {
      WiderBurstDropsMore(gaps, expected, wide, narrow, j - 1);
    }
  }

  lemma {:induction false} PartDropsLess(gaps: seq<real>, expected: real, j: nat, more: nat)
    requires expected > 0.0 && j <= more <= |gaps|
    ensures DropsIn(gaps, expected, 0, j) <= DropsIn(gaps, expected, 0, more)
  {
    if j < more {
      PartDropsLess(gaps, expected, j, more - 1);
    }
  }

  /** No burst among the first `n` gaps drops more than `worst`. */
  ghost predicate BoundsBursts(gaps: seq<real>, expected: real, n: nat, worst: nat)
    requires expected > 0.0 && n <= |gaps|
  {
    forall i, j :: 0 <= i <= j <= n && Burst(gaps, expected, i, j) ==> DropsIn(gaps, expected, i, j) <= worst
  }

  /** Some burst drops exactly `worst`. */
  ghost predicate IsBurstTotal(gaps: seq<real>, expected: real, worst: nat)
    requires expected > 0.0
  {
    exists i, j :: 0 <= i <= j <= |gaps| && Burst(gaps, expected, i, j) && DropsIn(gaps, expected, i, j) == worst
  }

  lemma BoundsRaise(gaps: seq<real>, expected: real, n: nat, low: nat, high: nat)
    requires expected > 0.0 && n <= |gaps| && low <= high && BoundsBursts(gaps, expected, n, low)
    ensures BoundsBursts(gaps, expected, n, high)
  {
  }

  /** Of all bursts that end at `m`, the one reaching furthest back drops the most. */
  lemma BoundsExtend(gaps: seq<real>, expected: real, start: nat, m: nat, worst: nat)
    requires expected > 0.0 && start <= m <= |gaps| && m > 0
    requires BoundsBursts(gaps, expected, m - 1, worst)
    requires Burst(gaps, expected, start, m) && DropsIn(gaps, expected, start, m) <= worst
    requires start > 0 ==> !Oversized(gaps[start - 1], expected)
    ensures BoundsBursts(gaps, expected, m, worst)
  {
    forall i, j | 0 <= i <= j <= m && Burst(gaps, expected, i, j)
      ensures DropsIn(gaps, expected, i, j) <= worst
    {
      if j == m && i < m {
        assert start <= i;
        WiderBurstDropsMore(gaps, expected, start, i, m);
      }
    }
  }

  /** A gap of k + 1 regular intervals stands for k lost frames. */
  lemma DropsOfWholeGap(k: nat, expected: real)
    requires k >= 1 && expected > 0.0
    ensures Drops((k + 1) as real * expected, expected) == k
  {
    var gap := (k + 1) as real * expected;
    assert gap / expected == (k + 1) as real;
    assert gap >= 2.0 * expected;
  }

  lemma HalvesRoundToEven(k: int)
    ensures RoundHalfEven(k as real + 0.5) == if k % 2 == 0 then k else k + 1
  {
  }

  lemma RoundsBetween(x: real, k: int)
    requires k as real - 0.5 < x < k as real + 0.5
    ensures RoundHalfEven(x) == k
  {
  }

  lemma RatioBounds(gap: real, expected: real, low: real, high: real)
    requires expected > 0.0
    ensures low * expected < gap <==> low < gap / expected
    ensures gap < high * expected <==> gap / expected < high
    ensures gap == high * expected <==> gap / expected == high
  {
    assert gap == (gap / expected) * expected;
  }

  lemma NearestDrops(gap: real, expected: real, d: nat)
    requires expected > 0.0 && 2.0 * gap > 3.0 * expected
    requires (d as real + 0.5) * expected < gap < (d as real + 1.5) * expected
    ensures Drops(gap, expected) == d
  {
    RatioBounds(gap, expected, d as real + 0.5, d as real + 1.5);
    RoundsBetween(gap / expected, d + 1);
    RatioBounds(gap, expected, 1.5, 1.5);
  }

  lemma TiedDrops(gap: real, expected: real, d: nat)
    requires expected > 0.0 && d >= 1 && gap == (d as real + 1.5) * expected
    ensures Drops(gap, expected) == if d % 2 == 1 then d else d + 1
  {
    RatioBounds(gap, expected, 1.5, d as real + 1.5);
    HalvesRoundToEven(d + 1);
    assert gap / expected == (d + 1) as real + 0.5;
  }

  /** What a gap stands for, in products only: nothing up to one and a half intervals;
      beyond that d lost frames if it is nearest to d + 1 intervals, and of two equally
      near counts the one that makes d + 1 even. */
  lemma DropsExact(gap: real, expected: real, d: nat)
    requires expected > 0.0
    ensures 2.0 * gap <= 3.0 * expected ==> Drops(gap, expected) == 0
    ensures 2.0 * gap > 3.0 * expected && (d as real + 0.5) * expected < gap < (d as real + 1.5) * expected ==>
      Drops(gap, expected) == d
    ensures d >= 1 && gap == (d as real + 1.5) * expected ==>
      Drops(gap, expected) == if d % 2 == 1 then d else d + 1
  {
    if 2.0 * gap > 3.0 * expected && (d as real + 0.5) * expected < gap < (d as real + 1.5) * expected {
      NearestDrops(gap, expected, d);
    } else if d >= 1 && gap == (d as real + 1.5) * expected {
      TiedDrops(gap, expected, d);
    }
  }

  method EstimatedDrops(gap: real, expected: real) returns (estimated: nat)
    requires expected > 0.0 && Oversized(gap, expected)
    ensures estimated == Drops(gap, expected) >= 1
  {
    estimated := Max(1, RoundHalfEven(gap / expected) - 1);
  }

  /** The scan after `n` gaps: `current` is the burst that ends here and reaches back to
      `start`; the worst so far is the one from `from` to `to`. */
  ghost predicate Scanned(
      gaps: seq<real>, expected: real, n: nat, dropped: nat, current: nat, worst: nat,
      start: nat, from: nat, to: nat)
  {
    && expected > 0.0 && start <= n <= |gaps| && from <= to <= n
    && dropped == DropsIn(gaps, expected, 0, n)
    && Burst(gaps, expected, start, n) && current == DropsIn(gaps, expected, start, n)
    && (start > 0 ==> !Oversized(gaps[start - 1], expected))
    && BoundsBursts(gaps, expected, n, worst)
    && Burst(gaps, expected, from, to) && DropsIn(gaps, expected, from, to) == worst
  }

  lemma ScanOversized(
      gaps: seq<real>, expected: real, n: nat, dropped: nat, current: nat, worst: nat,
      start: nat, from: nat, to: nat)
    requires n < |gaps| && Scanned(gaps, expected, n, dropped, current, worst, start, from, to)
    requires Oversized(gaps[n], expected)
    ensures
      var lost := Drops(gaps[n], expected);
      if current + lost > worst then
        Scanned(gaps, expected, n + 1, dropped + lost, current + lost, current + lost, start, start, n + 1)
      else Scanned(gaps, expected, n + 1, dropped + lost, current + lost, worst, start, from, to)
  {
    var longer := current + Drops(gaps[n], expected);
    var high := if longer > worst then longer else worst;
    BoundsRaise(gaps, expected, n, worst, high);
    BoundsExtend(gaps, expected, start, n + 1, high);
  }

  lemma ScanRegular(
      gaps: seq<real>, expected: real, n: nat, dropped: nat, current: nat, worst: nat,
      start: nat, from: nat, to: nat)
    requires n < |gaps| && Scanned(gaps, expected, n, dropped, current, worst, start, from, to)
    requires !Oversized(gaps[n], expected)
    ensures Scanned(gaps, expected, n + 1, dropped, 0, worst, n + 1, from, to)
  {
    BoundsExtend(gaps, expected, n + 1, n + 1, worst);
  }

  /** One pass over the gaps: the total drops, and the worst burst - the largest sum over
      any contiguous stretch made only of oversized gaps. */
  method ScanGaps(gaps: seq<real>, expected: real) returns (dropped: nat, worst: nat)
    requires expected > 0.0
    ensures dropped == DropsIn(gaps, expected, 0, |gaps|)
    ensures BoundsBursts(gaps, expected, |gaps|, worst) && IsBurstTotal(gaps, expected, worst)
    ensures worst <= dropped
  {
    dropped, worst := 0, 0;
    var current: nat := 0;
    ghost var start: nat, from: nat, to: nat := 0, 0, 0;
    for n := 0 to |gaps|
      invariant Scanned(gaps, expected, n, dropped, current, worst, start, from, to)
    {
      if gaps[n] > expected * 1.5 {
        ScanOversized(gaps, expected, n, dropped, current, worst, start, from, to);
        var estimated := EstimatedDrops(gaps[n], expected);
        dropped := dropped + estimated;
        current := current + estimated;
        if current > worst {
          worst := current;
          from, to := start, n + 1;
        }
      } else {
        ScanRegular(gaps, expected, n, dropped, current, worst, start, from, to);
        current := 0;
        start := n + 1;
      }
    }
    WiderBurstDropsMore(gaps, expected, 0, from, to);
    PartDropsLess(gaps, expected, to, |gaps|);
  }

  function Gaps(timestamps: seq<real>): seq<real>
    requires timestamps != []
  {
    seq(|timestamps| - 1, i requires 0 <= i < |timestamps| - 1 => timestamps[i + 1] - timestamps[i])
  }

  function Finites(xs: seq<real>): seq<Sample> {
    seq(|xs|, i requires 0 <= i < |xs| => Finite(xs[i]))
  }

  /** The upper median. */
  function Median(xs: seq<real>): (m: real)
    requires xs != []
    ensures m in xs
  {
    SortSorts(Finites(xs));
    var middle := Sort(Finites(xs))[|xs| / 2];
    assert middle in multiset(Sort(Finites(xs)));
    assert middle in Finites(xs);
    middle.ms
  }

  // ---- The upper median, told by counting ----

  function CountLess(xs: seq<real>, m: real): nat {
    if xs == [] then 0 else CountLess(Front(xs), m) + (if Last(xs) < m then 1 else 0)
  }

  function CountMore(xs: seq<real>, m: real): nat {
    if xs == [] then 0 else CountMore(Front(xs), m) + (if Last(xs) > m then 1 else 0)
  }

  /** An entry with at most half of the list below it, and fewer than the rest above. */
  predicate IsUpperMedian(xs: seq<real>, m: real) {
    m in xs && CountLess(xs, m) <= |xs| / 2 && CountMore(xs, m) <= |xs| - 1 - |xs| / 2
  }

  lemma {:induction false} LessOrMore(xs: seq<real>, a: real, b: real)
    requires a < b
    ensures CountLess(xs, b) + CountMore(xs, a) >= |xs|
  {
    if xs != [] {
      LessOrMore(Front(xs), a, b);
    }
  }

  /** There is only one. */
  lemma MedianUnique(xs: seq<real>, a: real, b: real)
    requires IsUpperMedian(xs, a) && IsUpperMedian(xs, b)
    ensures a == b
  {
    if a < b {
      LessOrMore(xs, a, b);
    } else if b < a {
      LessOrMore(xs, b, a);
    }
  }

  function CountBelow(xs: seq<Sample>, m: real): nat {
    if xs == [] then 0 else CountBelow(Front(xs), m) + (if Le(Finite(m), Last(xs)) then 0 else 1)
  }

  lemma {:induction false} CountBelowConcat(a: seq<Sample>, b: seq<Sample>, m: real)
    ensures CountBelow(a + b, m) == CountBelow(a, m) + CountBelow(b, m)
  {
    if b == [] {
      assert a + b == a;
    } else {
      assert Front(a + b) == a + Front(b);
      CountBelowConcat(a, Front(b), m);
    }
  }

  lemma {:induction false} CountBelowInsert(x: Sample, xs: seq<Sample>, m: real)
    ensures CountBelow(SortedInsert(x, xs), m) == CountBelow(xs, m) + CountBelow([x], m)
  {
    if xs == [] || Le(x, xs[0]) {
      CountBelowConcat([x], xs, m);
    } else {
      CountBelowInsert(x, xs[1..], m);
      CountBelowConcat([xs[0]], SortedInsert(x, xs[1..]), m);
      CountBelowConcat([xs[0]], xs[1..], m);
      assert xs == [xs[0]] + xs[1..];
    }
  }

  lemma {:induction false} CountBelowSort(xs: seq<Sample>, m: real)
    ensures CountBelow(Sort(xs), m) == CountBelow(xs, m)
  {
    if xs != [] {
      CountBelowSort(xs[1..], m);
      CountBelowInsert(xs[0], Sort(xs[1..]), m);
      CountBelowConcat([xs[0]], xs[1..], m);
      assert xs == [xs[0]] + xs[1..];
    }
  }

  /** In a sorted list nothing from the i-th entry on is below it. */
  lemma {:induction false} BelowRank(s: seq<Sample>, i: nat)
    requires Sorted(s) && i < |s| && s[i].Finite?
    ensures CountBelow(s, s[i].ms) <= i
  {
    if i < |s| - 1 {
      assert Sorted(Front(s)) && Front(s)[i] == s[i];
      BelowRank(Front(s), i);
    } else {
      BelowAtMost(Front(s), s[i].ms);
    }
  }

  lemma {:induction false} BelowAtMost(s: seq<Sample>, m: real)
    ensures CountBelow(s, m) <= |s|
  {
    if s != [] {
      BelowAtMost(Front(s), m);
    }
  }

  lemma {:induction false} CountsOfFinites(xs: seq<real>, m: real)
    ensures CountBelow(Finites(xs), m) == CountLess(xs, m)
    ensures CountAbove(Finites(xs), m) == CountMore(xs, m)
  {
    if xs != [] {
      assert Front(Finites(xs)) == Finites(Front(xs));
      CountsOfFinites(Front(xs), m);
    }
  }

  lemma MedianIsUpper(xs: seq<real>)
    requires xs != []
    ensures IsUpperMedian(xs, Median(xs))
  {
    var samples, i, m := Finites(xs), |xs| / 2, Median(xs);
    SortSorts(samples);
    SortedMember(samples, i);
    BelowRank(Sort(samples), i);
    RankMeansCount(Sort(samples), i, m);
    CountBelowSort(samples, m);
    CountAboveSort(samples, m);
    CountsOfFinites(xs, m);
  }

  predicate AreGaps(timestamps: seq<real>, gaps: seq<real>) {
    |timestamps| == |gaps| + 1 && forall i :: 0 <= i < |gaps| ==> gaps[i] == timestamps[i + 1] - timestamps[i]
  }

  method AnalyzeFrameTimestamps(timestamps: seq<real>) returns (total: nat, dropped: nat, worst: nat)
    ensures total == |timestamps|
    ensures |timestamps| < 2 ==> dropped == worst == 0
    ensures forall gaps, expected :: AreGaps(timestamps, gaps) && IsUpperMedian(gaps, expected) ==>
      if expected <= 0.0 then dropped == worst == 0
      else
        && dropped == DropsIn(gaps, expected, 0, |gaps|)
        && BoundsBursts(gaps, expected, |gaps|, worst) && IsBurstTotal(gaps, expected, worst)
    ensures worst <= dropped
  {
    total, dropped, worst := |timestamps|, 0, 0;
    if |timestamps| < 2 {
      return;
    }
    var gaps := Gaps(timestamps);
    var expected := Median(gaps);
    MedianIsUpper(gaps);
    forall xs, m | AreGaps(timestamps, xs) && IsUpperMedian(xs, m) ensures xs == gaps && m == expected {
      assert xs == gaps;
      MedianUnique(gaps, m, expected);
    }
    if expected <= 0.0 {
      return;
    }
    dropped, worst := ScanGaps(gaps, expected);
  }
}
