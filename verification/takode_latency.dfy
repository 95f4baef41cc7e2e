/**
 * Latency of server actions: durations go into histogram windows, windows are
 * merged per action, and the reported bound brackets the exact percentile of
 * all recorded durations. A fraction is written p / q.
 */
module TakodeLatency {
  import opened Options

  /** The upper bounds of the histogram buckets; one more bucket counts larger values. */
  const BOUNDS: seq<int> := [1, 2, 5, 10, 20, 50, 100, 200, 500, 1000, 2000, 5000, 10000, 30000]

  predicate Rising(bounds: seq<int>) {
    forall i, j :: 0 <= i < j < |bounds| ==> bounds[i] < bounds[j]
  }

  lemma BoundsRise()
    ensures Rising(BOUNDS)
  {
  }

  function BucketIndex(bounds: seq<int>, ms: int): (r: nat)
    ensures r <= |bounds| && (forall j :: 0 <= j < r ==> bounds[j] < ms)
    ensures r < |bounds| ==> ms <= bounds[r]
  {
    if bounds == [] || ms <= bounds[0] then 0 else BucketIndex(bounds[1..], ms) + 1
  }

  /** What a bucket index is reported as: nothing for the overflow bucket. */
  function BoundAt(bounds: seq<int>, k: nat): Option<int> {
    if k < |bounds| then Some(bounds[k]) else None
  }

  // -------------------------------------------------------------- nearest rank

  function CountUpTo(s: seq<int>, x: int): nat {
    if s == [] then 0 else CountUpTo(s[..|s| - 1], x) + if s[|s| - 1] <= x then 1 else 0
  }

  function CountBelow(s: seq<int>, x: int): nat {
    if s == [] then 0 else CountBelow(s[..|s| - 1], x) + if s[|s| - 1] < x then 1 else 0
  }

  /** `v` is the sample at rank ⌈p/q · n⌉: fewer than p/q of the samples are below it, at least p/q are not above it. */
  predicate NearestRank(s: seq<int>, p: nat, q: nat, v: int) {
    q * CountBelow(s, v) < p * |s| <= q * CountUpTo(s, v)
  }

  lemma {:induction false} CountsGrow(s: seq<int>, x: int, y: int)
    ensures x <= y ==> CountUpTo(s, x) <= CountUpTo(s, y)
    ensures x < y ==> CountUpTo(s, x) <= CountBelow(s, y)
    ensures CountUpTo(s, x) <= |s|
  {
    if s != [] { CountsGrow(s[..|s| - 1], x, y); }
  }

  lemma Scaled(a: nat, b: nat, q: nat)
    requires a <= b
    ensures q * a <= q * b && a * q <= b * q
  {
  }

  /** There is at most one nearest-rank sample, so it does not depend on the order of the samples. */
  lemma NearestRankUnique(s: seq<int>, p: nat, q: nat, v: int, w: int)
    requires NearestRank(s, p, q, v) && NearestRank(s, p, q, w)
    ensures v == w
  {
    CountsGrow(s, v, w);
    CountsGrow(s, w, v);
    if v < w { Scaled(CountUpTo(s, v), CountBelow(s, w), q); }
    if w < v { Scaled(CountUpTo(s, w), CountBelow(s, v), q); }
  }

  function Insert(x: int, s: seq<int>): seq<int> {
    if s == [] || s[|s| - 1] <= x then s + [x] else Insert(x, s[..|s| - 1]) + [s[|s| - 1]]
  }

  function Sort(s: seq<int>): seq<int> {
    if s == [] then [] else Insert(s[|s| - 1], Sort(s[..|s| - 1]))
  }

  predicate Ascending(s: seq<int>) {
    s == [] || (Ascending(s[..|s| - 1]) && AllAtMost(s, s[|s| - 1]))
  }

  predicate AllAtMost(s: seq<int>, x: int) {
    forall i :: 0 <= i < |s| ==> s[i] <= x
  }

  lemma {:induction false} InsertFacts(x: int, s: seq<int>, y: int)
    ensures |Insert(x, s)| == |s| + 1
    ensures CountUpTo(Insert(x, s), y) == CountUpTo(s, y) + if x <= y then 1 else 0
    ensures CountBelow(Insert(x, s), y) == CountBelow(s, y) + if x < y then 1 else 0
    ensures AllAtMost(s, y) && x <= y ==> AllAtMost(Insert(x, s), y)
  {
    if s == [] || s[|s| - 1] <= x {
      assert (s + [x])[..|s|] == s;
    } else {
      var init := s[..|s| - 1];
      InsertFacts(x, init, y);
      assert (Insert(x, init) + [s[|s| - 1]])[..|Insert(x, init)|] == Insert(x, init);
    }
  }

  lemma {:induction false} InsertAscending(x: int, s: seq<int>)
    requires Ascending(s)
    ensures Ascending(Insert(x, s))
  {
    if s == [] || s[|s| - 1] <= x {
      assert (s + [x])[..|s|] == s;
    } else {
      var init := s[..|s| - 1];
      InsertAscending(x, init);
      InsertFacts(x, init, s[|s| - 1]);
      assert Insert(x, s)[..|Insert(x, init)|] == Insert(x, init);
    }
  }

  lemma {:induction false} SortCounts(s: seq<int>, y: int)
    ensures |Sort(s)| == |s| && CountUpTo(Sort(s), y) == CountUpTo(s, y) && CountBelow(Sort(s), y) == CountBelow(s, y)
  {
    if s != [] {
      SortCounts(s[..|s| - 1], y);
      InsertFacts(s[|s| - 1], Sort(s[..|s| - 1]), y);
    }
  }

  lemma {:induction false} SortAscending(s: seq<int>)
    ensures Ascending(Sort(s))
  {
    if s != [] {
      SortAscending(s[..|s| - 1]);
      InsertAscending(s[|s| - 1], Sort(s[..|s| - 1]));
    }
  }

  lemma {:induction false} AllCounted(s: seq<int>, x: int)
    requires AllAtMost(s, x)
    ensures CountUpTo(s, x) == |s|
  {
    if s != [] { AllCounted(s[..|s| - 1], x); }
  }

  lemma {:induction false} RankInSorted(s: seq<int>, index: nat)
    requires Ascending(s) && index < |s|
    ensures CountBelow(s, s[index]) <= index < CountUpTo(s, s[index])
  {
    var init := s[..|s| - 1];
    if index < |s| - 1 {
      RankInSorted(init, index);
    } else {
      AllCounted(s, s[index]);
      BelowAtMost(init, s[index]);
    }
  }

  lemma {:induction false} BelowAtMost(s: seq<int>, x: int)
    ensures CountBelow(s, x) <= |s|
  {
    if s != [] { BelowAtMost(s[..|s| - 1], x); }
  }

  function CeilDiv(a: nat, b: nat): nat
    requires b > 0
  {
    (a + b - 1) / b
  }

  lemma CeilDivBounds(a: nat, b: nat)
    requires b > 0 && a > 0
    ensures 0 < CeilDiv(a, b) && b * (CeilDiv(a, b) - 1) < a <= b * CeilDiv(a, b)
  {
    var c := a + b - 1;
    assert c == b * (c / b) + c % b;
    assert b * (CeilDiv(a, b) - 1) == b * CeilDiv(a, b) - b;
  }

  /** The percentile of sorted samples. */
  function Percentile(sorted: seq<int>, p: nat, q: nat): int
    requires sorted != [] && 0 < p && 0 < q
  {
    var last := |sorted| - 1;
    var rank := CeilDiv(p * |sorted|, q) - 1;
    CeilDivBounds(p * |sorted|, q);
    sorted[if rank < last then rank else last]
  }

  lemma RankWithin(p: nat, q: nat, n: nat)
    requires 0 < p <= q && 0 < n
    ensures 0 < p * n && CeilDiv(p * n, q) <= n
  {
    Scaled(p, q, n);
    CeilDivBounds(p * n, q);
    if CeilDiv(p * n, q) > n {
      Scaled(n, CeilDiv(p * n, q) - 1, q);
    }
  }

  lemma RankIsNearest(s: seq<int>, p: nat, q: nat, rank: nat, v: int)
    requires q * rank < p * |s| <= q * (rank + 1) && CountBelow(s, v) <= rank < CountUpTo(s, v)
    ensures NearestRank(s, p, q, v)
  {
    Scaled(CountBelow(s, v), rank, q);
    Scaled(rank + 1, CountUpTo(s, v), q);
  }

  /** The percentile of the sorted samples is their nearest-rank sample. */
  lemma PercentileIsNearestRank(s: seq<int>, p: nat, q: nat)
    requires s != [] && 0 < p <= q
    ensures Sort(s) != [] && NearestRank(s, p, q, Percentile(Sort(s), p, q))
  {
    SortCounts(s, 0);
    SortAscending(s);
    RankWithin(p, q, |s|);
    var rank := CeilDiv(p * |s|, q) - 1;
    CeilDivBounds(p * |s|, q);
    RankInSorted(Sort(s), rank);
    SortCounts(s, Sort(s)[rank]);
    RankIsNearest(s, p, q, rank, Sort(s)[rank]);
  }

  // ----------------------------------------------------------------- histogram

  datatype Stats = Stats(count: nat, sumMs: int, maxMs: int, buckets: seq<int>)

  function Zeros(n: nat): (r: seq<int>)
    ensures |r| == n && forall k :: 0 <= k < n ==> r[k] == 0
  {
    seq(n, _ => 0)
  }

  function Empty(bounds: seq<int>): (r: Stats)
    ensures |r.buckets| == |bounds| + 1
  {
    Stats(0, 0, 0, Zeros(|bounds| + 1))
  }

  function Max(a: int, b: int): int {
    if a < b then b else a
  }

  /** One more duration is recorded. */
  function Add(bounds: seq<int>, stats: Stats, ms: int): (r: Stats)
    requires |stats.buckets| == |bounds| + 1
    ensures |r.buckets| == |bounds| + 1
  {
    var k := BucketIndex(bounds, ms);
    Stats(stats.count + 1, stats.sumMs + ms, Max(stats.maxMs, ms), stats.buckets[k := stats.buckets[k] + 1])
  }

  /** The aggregate of a list of durations. */
  function StatsOf(bounds: seq<int>, durations: seq<int>): (r: Stats)
    ensures |r.buckets| == |bounds| + 1 && r.maxMs >= 0
  {
    if durations == [] then Empty(bounds)
    else Add(bounds, StatsOf(bounds, durations[..|durations| - 1]), durations[|durations| - 1])
  }

  function Sum(s: seq<int>): int {
    if s == [] then 0 else Sum(s[..|s| - 1]) + s[|s| - 1]
  }

  /** A sum: that of one number is the number, and sums of parts add up. */
  lemma {:induction false} SumMeans(a: seq<int>, b: seq<int>, x: int)
    ensures Sum([]) == 0 && Sum([x]) == x && Sum(a + b) == Sum(a) + Sum(b)
  {
    assert [x][..0] == [];
    if b == [] {
      assert a + b == a;
    } else {
      assert (a + b)[..|a + b| - 1] == a + b[..|b| - 1];
      SumMeans(a, b[..|b| - 1], x);
    }
  }

  /** `m` is the longest of these durations, and 0 when there is none above. */
  predicate IsLongest(durations: seq<int>, m: int) {
    m >= 0 && (m == 0 || m in durations) && forall k :: 0 <= k < |durations| ==> durations[k] <= m
  }

  /** The aggregate counts the durations, sums them up and keeps the longest. */
  lemma {:induction false} StatsMean(bounds: seq<int>, durations: seq<int>)
    ensures var stats := StatsOf(bounds, durations);
            stats.count == |durations| && stats.sumMs == Sum(durations) && IsLongest(durations, stats.maxMs)
  {
    if durations != [] {
      var init := durations[..|durations| - 1];
      StatsMean(bounds, init);
      assert durations == init + [durations[|durations| - 1]];
    }
  }

  lemma {:induction false} SumZeros(n: nat)
    ensures Sum(Zeros(n)) == 0
  {
    if n > 0 {
      SumZeros(n - 1);
      assert Zeros(n)[..n - 1] == Zeros(n - 1);
    }
  }

  lemma {:induction false} SumBumped(s: seq<int>, k: nat)
    requires k < |s|
    ensures Sum(s[k := s[k] + 1]) == Sum(s) + 1
  {
    var t := s[k := s[k] + 1];
    if k < |s| - 1 {
      SumBumped(s[..|s| - 1], k);
      assert t[..|s| - 1] == s[..|s| - 1][k := s[k] + 1];
    } else {
      assert t[..|s| - 1] == s[..|s| - 1];
    }
  }

  function Cumulative(buckets: seq<int>, k: nat): int
    requires k <= |buckets|
  {
    Sum(buckets[..k])
  }

  lemma CumulativeAdd(bounds: seq<int>, stats: Stats, ms: int, k: nat)
    requires |stats.buckets| == |bounds| + 1 && k <= |bounds|
    ensures Cumulative(Add(bounds, stats, ms).buckets, k + 1)
            == Cumulative(stats.buckets, k + 1) + if BucketIndex(bounds, ms) <= k then 1 else 0
  {
    var i := BucketIndex(bounds, ms);
    var after := Add(bounds, stats, ms).buckets[..k + 1];
    if i <= k {
      SumBumped(stats.buckets[..k + 1], i);
      assert after == stats.buckets[..k + 1][i := stats.buckets[i] + 1];
    } else {
      assert after == stats.buckets[..k + 1];
    }
  }

  /** The buckets up to the k-th count exactly the durations up to its bound. */
  lemma {:induction false} BucketsCount(bounds: seq<int>, durations: seq<int>, k: nat)
    requires Rising(bounds) && k < |bounds|
    ensures Cumulative(StatsOf(bounds, durations).buckets, k + 1) == CountUpTo(durations, bounds[k])
  {
    if durations == [] {
      SumZeros(k + 1);
      assert Zeros(|bounds| + 1)[..k + 1] == Zeros(k + 1);
    } else {
      var init := durations[..|durations| - 1];
      BucketsCount(bounds, init, k);
      CumulativeAdd(bounds, StatsOf(bounds, init), durations[|durations| - 1], k);
    }
  }

  /** No duration is lost: all buckets together, and the count, are the number of durations. */
  lemma {:induction false} BucketsComplete(bounds: seq<int>, durations: seq<int>)
    ensures Cumulative(StatsOf(bounds, durations).buckets, |bounds| + 1) == |durations| == StatsOf(bounds, durations).count
  {
    if durations == [] {
      SumZeros(|bounds| + 1);
      assert Zeros(|bounds| + 1)[..|bounds| + 1] == Zeros(|bounds| + 1);
    } else {
      var init := durations[..|durations| - 1];
      BucketsComplete(bounds, init);
      CumulativeAdd(bounds, StatsOf(bounds, init), durations[|durations| - 1], |bounds|);
    }
  }

  // -------------------------------------------------------------- upper bound

  /** Fewer than p/q of `count` are in the buckets up to the j-th. */
  predicate Short(buckets: seq<int>, count: nat, p: nat, q: nat, j: nat) {
    j < |buckets| && q * Cumulative(buckets, j + 1) < p * count
  }

  /** The k-th bucket is the first at which at least p/q of `count` have been seen. */
  predicate FirstReached(buckets: seq<int>, count: nat, p: nat, q: nat, k: nat) {
    k < |buckets| && !Short(buckets, count, p, q, k) && forall j: nat :: j < k ==> Short(buckets, count, p, q, j)
  }

  method HistogramUpperBound(bounds: seq<int>, buckets: seq<int>, count: nat, p: nat, q: nat) returns (r: Option<int>)
    ensures forall k: nat :: FirstReached(buckets, count, p, q, k) ==> r == BoundAt(bounds, k)
    ensures r.Some? ==> exists k: nat :: FirstReached(buckets, count, p, q, k)
  {
    var seen := 0;
    for index := 0 to |buckets|
      invariant seen == Cumulative(buckets, index)
      invariant forall j: nat :: j < index ==> Short(buckets, count, p, q, j)
    {
      assert buckets[..index + 1][..index] == buckets[..index];
      seen := seen + buckets[index];
      if q * seen >= p * count {
        assert FirstReached(buckets, count, p, q, index);
        return BoundAt(bounds, index);
      }
    }
    r := None;
  }

  lemma RankReachedWithin(bounds: seq<int>, durations: seq<int>, p: nat, q: nat, v: int)
    requires Rising(bounds) && NearestRank(durations, p, q, v) && BucketIndex(bounds, v) < |bounds|
    ensures !Short(StatsOf(bounds, durations).buckets, |durations|, p, q, BucketIndex(bounds, v))
  {
    var k := BucketIndex(bounds, v);
    BucketsCount(bounds, durations, k);
    CountsGrow(durations, v, bounds[k]);
    Scaled(CountUpTo(durations, v), CountUpTo(durations, bounds[k]), q);
  }

  lemma AllReached(bounds: seq<int>, durations: seq<int>, p: nat, q: nat)
    requires p <= q
    ensures !Short(StatsOf(bounds, durations).buckets, |durations|, p, q, |bounds|)
  {
    BucketsComplete(bounds, durations);
    Scaled(p, q, |durations|);
    var total := Cumulative(StatsOf(bounds, durations).buckets, |bounds| + 1);
    assert q * total == q * |durations|;
  }

  lemma RankNotBefore(bounds: seq<int>, durations: seq<int>, p: nat, q: nat, v: int, j: nat)
    requires Rising(bounds) && NearestRank(durations, p, q, v) && j < BucketIndex(bounds, v)
    ensures Short(StatsOf(bounds, durations).buckets, |durations|, p, q, j)
  {
    BucketsCount(bounds, durations, j);
    CountsGrow(durations, bounds[j], v);
    Scaled(CountUpTo(durations, bounds[j]), CountBelow(durations, v), q);
  }

  /** The bucket the scan stops at is the one that holds the nearest-rank duration. */
  lemma NearestRankBucket(bounds: seq<int>, durations: seq<int>, p: nat, q: nat, v: int)
    requires Rising(bounds) && p <= q && NearestRank(durations, p, q, v)
    ensures FirstReached(StatsOf(bounds, durations).buckets, |durations|, p, q, BucketIndex(bounds, v))
  {
    if BucketIndex(bounds, v) < |bounds| {
      RankReachedWithin(bounds, durations, p, q, v);
    } else {
      AllReached(bounds, durations, p, q);
    }
    forall j: nat | j < BucketIndex(bounds, v)
      ensures Short(StatsOf(bounds, durations).buckets, |durations|, p, q, j)
    {
      RankNotBefore(bounds, durations, p, q, v, j);
    }
  }

  /** `r` brackets `v`: the least bound not below it, or nothing when `v` is past the last bound. */
  predicate Brackets(bounds: seq<int>, r: Option<int>, v: int) {
    r == BoundAt(bounds, BucketIndex(bounds, v))
  }

  /** `b` is the least bound not below `v`. */
  predicate LeastNotBelow(bounds: seq<int>, b: int, v: int) {
    b in bounds && v <= b && forall i :: 0 <= i < |bounds| && bounds[i] < b ==> bounds[i] < v
  }

  predicate PastAll(bounds: seq<int>, v: int) {
    forall i :: 0 <= i < |bounds| ==> bounds[i] < v
  }

  lemma BracketsSome(bounds: seq<int>, b: int, v: int)
    requires Rising(bounds)
    ensures Brackets(bounds, Some(b), v) <==> LeastNotBelow(bounds, b, v)
  {
    var k := BucketIndex(bounds, v);
    if LeastNotBelow(bounds, b, v) {
      var i :| 0 <= i < |bounds| && bounds[i] == b;
      assert k <= i;
    }
    if Brackets(bounds, Some(b), v) {
      assert forall i :: k <= i < |bounds| ==> b <= bounds[i];
    }
  }

  lemma BracketsNone(bounds: seq<int>, v: int)
    ensures Brackets(bounds, None, v) <==> PastAll(bounds, v)
  {
  }

  // ------------------------------------------------------------------- merging

  function Plus(a: seq<int>, b: seq<int>): (r: seq<int>)
    requires |a| == |b|
    ensures |r| == |a| && forall k :: 0 <= k < |a| ==> r[k] == a[k] + b[k]
  {
    seq(|a|, k requires 0 <= k < |a| => a[k] + b[k])
  }

  function Merge(a: Stats, b: Stats): (r: Stats)
    requires |a.buckets| == |b.buckets|
    ensures |r.buckets| == |a.buckets|
  {
    Stats(a.count + b.count, a.sumMs + b.sumMs, Max(a.maxMs, b.maxMs), Plus(a.buckets, b.buckets))
  }

  lemma MergeAdd(bounds: seq<int>, a: Stats, b: Stats, ms: int)
    requires |a.buckets| == |b.buckets| == |bounds| + 1
    ensures Merge(a, Add(bounds, b, ms)) == Add(bounds, Merge(a, b), ms)
  {
    assert Merge(a, Add(bounds, b, ms)).buckets == Add(bounds, Merge(a, b), ms).buckets;
  }

  lemma MergeEmpty(bounds: seq<int>, a: Stats)
    requires |a.buckets| == |bounds| + 1 && a.maxMs >= 0
    ensures Merge(a, Empty(bounds)) == a
  {
    assert Merge(a, Empty(bounds)).buckets == a.buckets;
  }

  lemma MergeCommutes(a: Stats, b: Stats)
    requires |a.buckets| == |b.buckets|
    ensures Merge(a, b) == Merge(b, a)
  {
    assert Plus(a.buckets, b.buckets) == Plus(b.buckets, a.buckets);
  }

  lemma MergeAssociates(a: Stats, b: Stats, c: Stats)
    requires |a.buckets| == |b.buckets| == |c.buckets|
    ensures Merge(Merge(a, b), c) == Merge(a, Merge(b, c))
  {
    assert Merge(Merge(a, b), c).buckets == Merge(a, Merge(b, c)).buckets;
  }

  /** The aggregate of two lists of durations is the merge of their aggregates. */
  lemma {:induction false} StatsConcat(bounds: seq<int>, a: seq<int>, b: seq<int>)
    ensures StatsOf(bounds, a + b) == Merge(StatsOf(bounds, a), StatsOf(bounds, b))
  {
    if b == [] {
      assert a + b == a;
      MergeEmpty(bounds, StatsOf(bounds, a));
    } else {
      var init, ms := b[..|b| - 1], b[|b| - 1];
      assert (a + b)[..|a + b| - 1] == a + init;
      StatsConcat(bounds, a, init);
      MergeAdd(bounds, StatsOf(bounds, a), StatsOf(bounds, init), ms);
    }
  }

  datatype Window = Window(action: string, stats: Stats)

  predicate WellFormed(bounds: seq<int>, windows: seq<Window>) {
    forall i :: 0 <= i < |windows| ==> |windows[i].stats.buckets| == |bounds| + 1
  }

  /** All windows of one action, merged in order. */
  function Merged(bounds: seq<int>, windows: seq<Window>, action: string): (r: Stats)
    requires WellFormed(bounds, windows)
    ensures |r.buckets| == |bounds| + 1 && r.maxMs >= 0
  {
    if windows == [] then Empty(bounds)
    else
      var last := windows[|windows| - 1];
      var before := Merged(bounds, windows[..|windows| - 1], action);
      if last.action == action then Merge(before, last.stats) else before
  }

  lemma {:induction false} MergedConcat(bounds: seq<int>, a: seq<Window>, b: seq<Window>, action: string)
    requires WellFormed(bounds, a) && WellFormed(bounds, b)
    ensures WellFormed(bounds, a + b)
    ensures Merged(bounds, a + b, action) == Merge(Merged(bounds, a, action), Merged(bounds, b, action))
  {
    if b == [] {
      assert a + b == a;
      MergeEmpty(bounds, Merged(bounds, a, action));
    } else {
      var init, last := b[..|b| - 1], b[|b| - 1];
      assert (a + b)[..|a + b| - 1] == a + init;
      MergedConcat(bounds, a, init, action);
      MergeAssociates(Merged(bounds, a, action), Merged(bounds, init, action), last.stats);
    }
  }

  /** A window may as well come last. */
  lemma MergedMoved(bounds: seq<int>, a: seq<Window>, w: Window, b: seq<Window>, action: string)
    requires WellFormed(bounds, a + [w] + b)
    ensures WellFormed(bounds, a + b + [w]) && Merged(bounds, a + [w] + b, action) == Merged(bounds, a + b + [w], action)
  {
    assert forall k :: 0 <= k < |a| ==> a[k] == (a + [w] + b)[k];
    assert (a + [w] + b)[|a|] == w;
    assert forall k :: 0 <= k < |b| ==> b[k] == (a + [w] + b)[|a| + 1 + k];
    var (x, y, z) := (Merged(bounds, a, action), Merged(bounds, [w], action), Merged(bounds, b, action));
    MergedConcat(bounds, a, [w], action);
    MergedConcat(bounds, a + [w], b, action);
    MergedConcat(bounds, a, b, action);
    MergedConcat(bounds, a + b, [w], action);
    MergeAssociates(x, y, z);
    MergeAssociates(x, z, y);
    MergeCommutes(y, z);
  }

  lemma BagWithout<T>(s: seq<T>, i: nat)
    requires i < |s|
    ensures multiset(s) == multiset(s[..i] + s[i + 1..]) + multiset{s[i]}
  {
    assert s == s[..i] + [s[i]] + s[i + 1..];
  }

  lemma Cancel<T>(a: multiset<T>, b: multiset<T>, w: T)
    requires a + multiset{w} == b + multiset{w}
    ensures a == b
  {
    assert a == (a + multiset{w}) - multiset{w};
    assert b == (b + multiset{w}) - multiset{w};
  }

  lemma SameRest<T>(a: seq<T>, b: seq<T>, i: nat)
    requires a != [] && multiset(a) == multiset(b) && i < |b| && b[i] == a[|a| - 1]
    ensures multiset(a[..|a| - 1]) == multiset(b[..i] + b[i + 1..])
  {
    BagWithout(a, |a| - 1);
    BagWithout(b, i);
    assert a[..|a| - 1] + a[|a|..] == a[..|a| - 1];
    Cancel(multiset(a[..|a| - 1]), multiset(b[..i] + b[i + 1..]), b[i]);
  }

  lemma LastTaken(bounds: seq<int>, b: seq<Window>, i: nat, action: string)
    requires WellFormed(bounds, b) && i < |b|
    ensures var rest := b[..i] + b[i + 1..];
            WellFormed(bounds, rest)
            && Merged(bounds, b, action)
               == if b[i].action == action then Merge(Merged(bounds, rest, action), b[i].stats) else Merged(bounds, rest, action)
  {
    var rest := b[..i] + b[i + 1..];
    assert b == b[..i] + [b[i]] + b[i + 1..];
    MergedMoved(bounds, b[..i], b[i], b[i + 1..], action);
    assert (rest + [b[i]])[..|rest|] == rest;
    assert forall k :: 0 <= k < |rest| ==> rest[k] == if k < i then b[k] else b[k + 1];
  }

  /** The merged windows of an action do not depend on the order of the log. */
  lemma {:induction false} MergedInAnyOrder(bounds: seq<int>, a: seq<Window>, b: seq<Window>, action: string)
    requires WellFormed(bounds, a) && WellFormed(bounds, b) && multiset(a) == multiset(b)
    ensures Merged(bounds, a, action) == Merged(bounds, b, action)
    decreases |a|
  {
    assert |multiset(a)| == |a| && |multiset(b)| == |b|;
    if a != [] {
      var w := a[|a| - 1];
      assert w in multiset(b);
      var i: nat :| i < |b| && b[i] == w;
      SameRest(a, b, i);
      LastTaken(bounds, b, i, action);
      MergedInAnyOrder(bounds, a[..|a| - 1], b[..i] + b[i + 1..], action);
    }
  }

  /** The durations of one action, when the k-th window holds `durations[k]`. */
  function DurationsIn(windows: seq<Window>, durations: seq<seq<int>>, action: string): seq<int>
    requires |windows| == |durations|
  {
    if windows == [] then []
    else
      var n := |windows| - 1;
      DurationsIn(windows[..n], durations[..n], action) + if windows[n].action == action then durations[n] else []
  }

  predicate Hold(bounds: seq<int>, windows: seq<Window>, durations: seq<seq<int>>) {
    |windows| == |durations| && forall k :: 0 <= k < |windows| ==> windows[k].stats == StatsOf(bounds, durations[k])
  }

  /** Whoever wrote the windows: merged, they are the aggregate of all their durations. */
  lemma {:induction false} MergedIsAggregate(bounds: seq<int>, windows: seq<Window>, durations: seq<seq<int>>, action: string)
    requires WellFormed(bounds, windows) && Hold(bounds, windows, durations)
    ensures Merged(bounds, windows, action) == StatsOf(bounds, DurationsIn(windows, durations, action))
  {
    if windows != [] {
      var n := |windows| - 1;
      MergedIsAggregate(bounds, windows[..n], durations[..n], action);
      var before := DurationsIn(windows[..n], durations[..n], action);
      StatsConcat(bounds, before, durations[n]);
      assert before + [] == before;
    }
  }

  predicate Mentions(windows: seq<Window>, action: string) {
    exists i :: 0 <= i < |windows| && windows[i].action == action
  }

  datatype Summary = Summary(calls: nat, sumMs: int, p95UpperMs: Option<int>, maxMs: int)

  /** A row reports the merged windows, with the bound of the bucket at which 95 percent have been seen. */
  ghost predicate Reports(bounds: seq<int>, row: Summary, stats: Stats) {
    row.calls == stats.count && row.sumMs == stats.sumMs && row.maxMs == stats.maxMs
    && forall k: nat :: FirstReached(stats.buckets, stats.count, 95, 100, k) ==> row.p95UpperMs == BoundAt(bounds, k)
  }

  lemma MentionsLast(windows: seq<Window>, action: string)
    requires windows != []
    ensures Mentions(windows, action) <==>
            Mentions(windows[..|windows| - 1], action) || windows[|windows| - 1].action == action
  {
  }

  lemma {:induction false} UnmentionedIsEmpty(bounds: seq<int>, windows: seq<Window>, action: string)
    requires WellFormed(bounds, windows) && !Mentions(windows, action)
    ensures Merged(bounds, windows, action) == Empty(bounds)
  {
    if windows != [] {
      MentionsLast(windows, action);
      UnmentionedIsEmpty(bounds, windows[..|windows| - 1], action);
    }
  }

  /** One window's numbers are added to its action's entry. */
  method AddWindow(entry: Stats, window: Stats) returns (r: Stats)
    requires |entry.buckets| == |window.buckets|
    ensures r == Merge(entry, window)
  {
    var buckets := entry.buckets;
    for index := 0 to |window.buckets|
      invariant |buckets| == |entry.buckets|
      invariant forall k :: 0 <= k < |buckets| ==> buckets[k] == entry.buckets[k] + if k < index then window.buckets[k] else 0
    {
      buckets := buckets[index := buckets[index] + window.buckets[index]];
    }
    assert buckets == Plus(entry.buckets, window.buckets);
    r := Stats(entry.count + window.count, entry.sumMs + window.sumMs, Max(entry.maxMs, window.maxMs), buckets);
  }

  /** The entry of an action, if it should have one. */
  ghost predicate EntryOk(bounds: seq<int>, windows: seq<Window>, merged: map<string, Stats>, action: string)
    requires WellFormed(bounds, windows)
  {
    (action in merged <==> Mentions(windows, action))
    && (action in merged ==> merged[action] == Merged(bounds, windows, action))
  }

  lemma EntryKept(bounds: seq<int>, windows: seq<Window>, window: Window, merged: map<string, Stats>, entry: Stats,
                  action: string)
    requires WellFormed(bounds, windows) && |window.stats.buckets| == |bounds| + 1
    requires EntryOk(bounds, windows, merged, action)
    requires entry == Merge(Merged(bounds, windows, window.action), window.stats)
    ensures WellFormed(bounds, windows + [window])
    ensures EntryOk(bounds, windows + [window], merged[window.action := entry], action)
  {
    assert (windows + [window])[..|windows|] == windows;
    MentionsLast(windows + [window], action);
  }

  method MergeWindows(bounds: seq<int>, windows: seq<Window>) returns (merged: map<string, Stats>)
    requires WellFormed(bounds, windows)
    ensures forall a :: EntryOk(bounds, windows, merged, a)
  {
    merged := map[];
    for i := 0 to |windows|
      invariant forall a :: EntryOk(bounds, windows[..i], merged, a)
    {
      var window := windows[i];
      ghost var was := merged;
      assert EntryOk(bounds, windows[..i], merged, window.action);
      if window.action !in merged { UnmentionedIsEmpty(bounds, windows[..i], window.action); }
      var entry := if window.action in merged then merged[window.action] else Empty(bounds);
      var sum := AddWindow(entry, window.stats);
      merged := merged[window.action := sum];
      ghost var now := windows[..i + 1];
      assert now == windows[..i] + [window];
      forall a ensures EntryOk(bounds, now, merged, a) {
        EntryKept(bounds, windows[..i], window, was, sum, a);
      }
    }
    assert windows[..|windows|] == windows;
  }

  /** One row per action that has a window. */
  method SummarizeServerActions(bounds: seq<int>, windows: seq<Window>) returns (rows: map<string, Summary>)
    requires WellFormed(bounds, windows)
    ensures forall a :: a in rows <==> Mentions(windows, a)
    ensures forall a :: a in rows ==> Reports(bounds, rows[a], Merged(bounds, windows, a))
  {
    var merged := MergeWindows(bounds, windows);
    rows := map[];
    var todo := merged.Keys;
    while todo != {}
      invariant todo <= merged.Keys && rows.Keys == merged.Keys - todo
      invariant forall a :: a in rows ==> Reports(bounds, rows[a], merged[a])
      decreases |todo|
    {
      var a :| a in todo;
      var entry := merged[a];
      var p95 := HistogramUpperBound(bounds, entry.buckets, entry.count, 95, 100);
      rows := rows[a := Summary(entry.count, entry.sumMs, p95, entry.maxMs)];
      todo := todo - {a};
    }
    forall a
      ensures a in rows <==> Mentions(windows, a)
      ensures a in rows ==> Reports(bounds, rows[a], Merged(bounds, windows, a))
    {
      assert EntryOk(bounds, windows, merged, a);
    }
  }

  // ----------------------------------------------------------------- recording

  /** Recorded calls: the action and how long it took. */
  type Calls = seq<(string, int)>

  /** The open window: the aggregate of each action. */
  type Table = map<string, Stats>

  /** The durations recorded for one action, in order. */
  function DurationsOf(calls: Calls, action: string): seq<int> {
    if calls == [] then []
    else
      var (a, ms) := calls[|calls| - 1];
      DurationsOf(calls[..|calls| - 1], action) + if a == action then [ms] else []
  }

  /** The durations of an action are those of its own calls, in order. */
  lemma {:induction false} DurationsJoin(a: Calls, b: Calls, call: (string, int), action: string)
    ensures DurationsOf([call], action) == if call.0 == action then [call.1] else []
    ensures DurationsOf(a + b, action) == DurationsOf(a, action) + DurationsOf(b, action)
  {
    assert [call][..0] == [];
    if b == [] {
      assert a + b == a && DurationsOf(a, action) + [] == DurationsOf(a, action);
    } else {
      assert (a + b)[..|a + b| - 1] == a + b[..|b| - 1];
      DurationsJoin(a, b[..|b| - 1], call, action);
    }
  }

  function Get(bounds: seq<int>, stats: Table, action: string): (r: Stats)
    requires forall a :: a in stats ==> |stats[a].buckets| == |bounds| + 1
    ensures |r.buckets| == |bounds| + 1
  {
    if action in stats then stats[action] else Empty(bounds)
  }

  predicate Shaped(bounds: seq<int>, stats: Table) {
    forall a :: a in stats ==> |stats[a].buckets| == |bounds| + 1
  }

  /** Nothing is lost or counted twice: the log and the open window together are the aggregate of all calls. */
  ghost predicate Accounted(bounds: seq<int>, log: seq<Window>, stats: Table, calls: Calls, action: string)
    requires WellFormed(bounds, log) && Shaped(bounds, stats)
  {
    Merge(Merged(bounds, log, action), Get(bounds, stats, action)) == StatsOf(bounds, DurationsOf(calls, action))
  }

  ghost predicate AllAccounted(bounds: seq<int>, log: seq<Window>, stats: Table, calls: Calls) {
    WellFormed(bounds, log) && Shaped(bounds, stats) && forall a :: Accounted(bounds, log, stats, calls, a)
  }

  lemma DurationsOneMore(calls: Calls, call: (string, int), action: string)
    ensures DurationsOf(calls + [call], action) == DurationsOf(calls, action) + if call.0 == action then [call.1] else []
  {
    assert (calls + [call])[..|calls|] == calls;
  }

  lemma StatsOneMore(bounds: seq<int>, durations: seq<int>, ms: int)
    ensures StatsOf(bounds, durations + [ms]) == Add(bounds, StatsOf(bounds, durations), ms)
  {
    assert (durations + [ms])[..|durations|] == durations;
  }

  lemma RecordKeeps(bounds: seq<int>, log: seq<Window>, stats: Table, calls: Calls,
                    call: (string, int), action: string)
    requires WellFormed(bounds, log) && Shaped(bounds, stats) && Accounted(bounds, log, stats, calls, action)
    ensures var next := stats[call.0 := Add(bounds, Get(bounds, stats, call.0), call.1)];
            Shaped(bounds, next) && Accounted(bounds, log, next, calls + [call], action)
  {
    DurationsOneMore(calls, call, action);
    if call.0 == action {
      StatsOneMore(bounds, DurationsOf(calls, action), call.1);
      MergeAdd(bounds, Merged(bounds, log, action), Get(bounds, stats, action), call.1);
    } else {
      assert DurationsOf(calls, action) + [] == DurationsOf(calls, action);
    }
  }

  lemma RecordKeepsAll(bounds: seq<int>, log: seq<Window>, stats: Table, calls: Calls, call: (string, int))
    requires AllAccounted(bounds, log, stats, calls)
    ensures AllAccounted(bounds, log, stats[call.0 := Add(bounds, Get(bounds, stats, call.0), call.1)], calls + [call])
  {
    var next, now := stats[call.0 := Add(bounds, Get(bounds, stats, call.0), call.1)], calls + [call];
    forall a ensures Accounted(bounds, log, next, now, a) { RecordKeeps(bounds, log, stats, calls, call, a); }
  }

  /** The log with the aggregates of the actions in `done` written to it. */
  ghost predicate Written(bounds: seq<int>, before: seq<Window>, log: seq<Window>, stats: Table, done: set<string>,
                          action: string)
    requires WellFormed(bounds, before) && WellFormed(bounds, log) && Shaped(bounds, stats)
  {
    Merged(bounds, log, action)
    == if action in done && action in stats then Merge(Merged(bounds, before, action), stats[action])
       else Merged(bounds, before, action)
  }

  lemma WriteOne(bounds: seq<int>, before: seq<Window>, log: seq<Window>, stats: Table, done: set<string>,
                 next: string, action: string)
    requires WellFormed(bounds, before) && WellFormed(bounds, log) && Shaped(bounds, stats)
    requires next in stats && next !in done && Written(bounds, before, log, stats, done, action)
    ensures WellFormed(bounds, log + [Window(next, stats[next])])
    ensures Written(bounds, before, log + [Window(next, stats[next])], stats, done + {next}, action)
  {
    assert (log + [Window(next, stats[next])])[..|log|] == log;
  }

  lemma FlushKeeps(bounds: seq<int>, before: seq<Window>, log: seq<Window>, stats: Table, calls: Calls, action: string)
    requires WellFormed(bounds, before) && WellFormed(bounds, log) && Shaped(bounds, stats)
    requires Accounted(bounds, before, stats, calls, action) && Written(bounds, before, log, stats, stats.Keys, action)
    ensures Accounted(bounds, log, map[], calls, action)
  {
    MergeEmpty(bounds, Merged(bounds, log, action));
    MergeEmpty(bounds, Merged(bounds, before, action));
  }

  ghost predicate AllWritten(bounds: seq<int>, before: seq<Window>, log: seq<Window>, stats: Table, done: set<string>) {
    WellFormed(bounds, before) && WellFormed(bounds, log) && Shaped(bounds, stats)
    && forall a :: Written(bounds, before, log, stats, done, a)
  }

  lemma WriteOneForAll(bounds: seq<int>, before: seq<Window>, log: seq<Window>, stats: Table, done: set<string>, next: string)
    requires AllWritten(bounds, before, log, stats, done) && next in stats && next !in done
    ensures AllWritten(bounds, before, log + [Window(next, stats[next])], stats, done + {next})
  {
    var after, more := log + [Window(next, stats[next])], done + {next};
    forall a ensures Written(bounds, before, after, stats, more, a) { WriteOne(bounds, before, log, stats, done, next, a); }
  }

  lemma FlushKeepsAll(bounds: seq<int>, before: seq<Window>, log: seq<Window>, stats: Table, calls: Calls)
    requires AllAccounted(bounds, before, stats, calls) && AllWritten(bounds, before, log, stats, stats.Keys)
    ensures AllAccounted(bounds, log, map[], calls)
  {
    forall a ensures Accounted(bounds, log, map[], calls, a) {
      assert Written(bounds, before, log, stats, stats.Keys, a);
      FlushKeeps(bounds, before, log, stats, calls, a);
    }
  }

  /** The recorder in the server: aggregates per action, appended to the log once per window. */
  class ActionLatency {
    const bounds: seq<int>
    var stats: Table
    var log: seq<Window>
    ghost var calls: Calls

    ghost predicate Valid()
      reads this
    {
      AllAccounted(bounds, log, stats, calls)
    }

    constructor (bounds: seq<int>)
      ensures Valid() && this.bounds == bounds && log == [] && calls == []
    {
      this.bounds := bounds;
      stats, log, calls := map[], [], [];
      new;
      forall a ensures Accounted(bounds, log, stats, calls, a) { MergeEmpty(bounds, Empty(bounds)); }
    }

    method Record(action: string, ms: nat)
      requires Valid()
      modifies this`stats, this`calls
      ensures Valid() && calls == old(calls) + [(action, ms)]
    {
      RecordKeepsAll(bounds, log, stats, calls, (action, ms));
      var entry := Get(bounds, stats, action);
      var k := BucketIndex(bounds, ms);
      stats := stats[action := Stats(entry.count + 1, entry.sumMs + ms, Max(entry.maxMs, ms),
                                     entry.buckets[k := entry.buckets[k] + 1])];
      calls := calls + [(action, ms)];
    }

    /** The open window goes to the log, one line per action, and a new one starts. */
    method Flush()
      requires Valid()
      modifies this`stats, this`log
      ensures Valid() && stats == map[]
    {
      ghost var done: set<string> := {};
      var todo := stats.Keys;
      while todo != {}
        invariant stats == old(stats) && calls == old(calls) && todo <= stats.Keys && done == stats.Keys - todo
        invariant AllWritten(bounds, old(log), log, stats, done)
        decreases |todo|
      {
        var next :| next in todo;
        WriteOneForAll(bounds, old(log), log, stats, done, next);
        log := log + [Window(next, stats[next])];
        todo, done := todo - {next}, done + {next};
      }
      assert done == stats.Keys;
      FlushKeepsAll(bounds, old(log), log, stats, calls);
      stats := map[];
    }
  }

  /** The 95th percentile of some durations. */
  function P95(durations: seq<int>): int
    requires durations != []
  {
    PercentileIsNearestRank(durations, 95, 100);
    Percentile(Sort(durations), 95, 100)
  }

  /** The row counts exactly `durations`, sums them up, has the longest, and its bound brackets their exact 95th percentile. */
  ghost predicate IsRowOf(bounds: seq<int>, row: Summary, durations: seq<int>)
    requires durations != []
  {
    && row.calls == |durations| && row.sumMs == Sum(durations) && IsLongest(durations, row.maxMs)
    && Brackets(bounds, row.p95UpperMs, P95(durations))
  }

  /** An action with recorded durations has the row of exactly these. */
  ghost predicate RowOk(bounds: seq<int>, rows: map<string, Summary>, action: string, durations: seq<int>) {
    durations != [] ==> action in rows && IsRowOf(bounds, rows[action], durations)
  }

  lemma RowBrackets(bounds: seq<int>, row: Summary, durations: seq<int>)
    requires Rising(bounds) && durations != [] && Reports(bounds, row, StatsOf(bounds, durations))
    ensures IsRowOf(bounds, row, durations)
  {
    StatsMean(bounds, durations);
    PercentileIsNearestRank(durations, 95, 100);
    NearestRankBucket(bounds, durations, 95, 100, P95(durations));
    BucketsComplete(bounds, durations);
  }

  /**
   * Windows from any number of recorders, read in any order: the row of an
   * action counts all of its calls and brackets their exact 95th percentile.
   */
  lemma AnyWindowsBracket(bounds: seq<int>, windows: seq<Window>, durations: seq<seq<int>>, log: seq<Window>,
                          row: Summary, action: string)
    requires Rising(bounds) && WellFormed(bounds, windows) && Hold(bounds, windows, durations)
    requires WellFormed(bounds, log) && multiset(log) == multiset(windows)
    requires Reports(bounds, row, Merged(bounds, log, action)) && DurationsIn(windows, durations, action) != []
    ensures var all := DurationsIn(windows, durations, action);
            IsRowOf(bounds, row, all)
  {
    MergedInAnyOrder(bounds, log, windows, action);
    MergedIsAggregate(bounds, windows, durations, action);
    RowBrackets(bounds, row, DurationsIn(windows, durations, action));
  }

  /**
   * The report over the log of a recorder: however its calls were spread over
   * windows, every action with a recorded call has a row on all of its calls.
   */
  method ReportOf(recorder: ActionLatency) returns (rows: map<string, Summary>)
    requires recorder.Valid() && recorder.stats == map[] && Rising(recorder.bounds)
    ensures forall a :: RowOk(recorder.bounds, rows, a, DurationsOf(recorder.calls, a))
  {
    rows := SummarizeServerActions(recorder.bounds, recorder.log);
    forall a ensures RowOk(recorder.bounds, rows, a, DurationsOf(recorder.calls, a)) {
      var durations := DurationsOf(recorder.calls, a);
      assert Accounted(recorder.bounds, recorder.log, recorder.stats, recorder.calls, a);
      MergeEmpty(recorder.bounds, Merged(recorder.bounds, recorder.log, a));
      BucketsComplete(recorder.bounds, durations);
      if a !in rows { UnmentionedIsEmpty(recorder.bounds, recorder.log, a); }
      if durations != [] && a in rows { RowBrackets(recorder.bounds, rows[a], durations); }
    }
  }
}
