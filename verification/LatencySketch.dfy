/** The mergeable latency sketch (packages/analytics/src/distribution.ts): counts in fixed buckets,
    from which percentiles are estimated. Latencies are reals in milliseconds; a bucket is named by
    its position in the table of upper bounds, and the last position is the overflow bucket. */
module LatencySketch {
  import opened Collections
  import opened Sorting

  const BOUNDS: seq<nat> := [
    5, 10, 20, 35, 50, 75, 100, 150, 200, 300, 500, 750, 1000, 1500, 2000, 3000,
    5000, 7500, 10000, 15000, 20000, 30000, 60000, 120000]

  const OVERFLOW: nat := 24

  /** The upper edge of a bucket. */
  function Bound(i: nat): nat
    requires i < OVERFLOW
  {
    BOUNDS[i]
  }

  lemma {:induction false} BoundsIncrease(i: nat, j: nat)
    requires i < j < OVERFLOW
    ensures Bound(i) < Bound(j)
  {
    assert Bound(j - 1) < Bound(j);
    if i < j - 1 {
      BoundsIncrease(i, j - 1);
    }
  }

  /** The lower edge of a bucket. */
  function Floor(i: nat): nat
    requires i <= OVERFLOW
  {
    if i == 0 then 0 else Bound(i - 1)
  }

  lemma FloorBelow(i: nat)
    requires i < OVERFLOW
    ensures Floor(i) <= Bound(i)
  {
    if i > 0 {
      BoundsIncrease(i - 1, i);
    }
  }

  function FirstBucket(v: nat, i: nat): (b: nat)
    requires i <= OVERFLOW
    requires i > 0 ==> Bound(i - 1) < v
    ensures i <= b <= OVERFLOW
    ensures b < OVERFLOW ==> v <= Bound(b)
    ensures b > 0 ==> Bound(b - 1) < v
    decreases OVERFLOW - i
  {
    if i == OVERFLOW || v <= Bound(i) then i else FirstBucket(v, i + 1)
  }

  /** The first bucket whose bound is not exceeded. */
  function BucketOf(v: nat): (b: nat)
    ensures b <= OVERFLOW
    ensures b < OVERFLOW ==> v <= Bound(b)
    ensures b > 0 ==> Bound(b - 1) < v
  {
    FirstBucket(v, 0)
  }

  lemma BucketsSplit(v: nat, i: nat)
    requires i < OVERFLOW
    ensures BucketOf(v) <= i <==> v <= Bound(i)
  {
    hide *;
    var b := BucketOf(v);
    if b < i {
      BoundsIncrease(b, i);
    }
    if i < b - 1 {
      BoundsIncrease(i, b - 1);
    }
  }

  // ---------------------------------------------------------------- values of a sketch

  datatype Sketch = Sketch(count: nat, sumMs: nat, minMs: nat, maxMs: nat, buckets: seq<nat>)

  function Empty(): Sketch {
    Sketch(0, 0, 0, 0, seq(25, _ => 0))
  }

  predicate Valid(s: Sketch) {
    |s.buckets| == 25 && (s.count == 0 ==> s == Empty())
  }

  function Min(a: nat, b: nat): nat { if a < b then a else b }

  function Max(a: nat, b: nat): nat { if a > b then a else b }

  function Recorded(s: Sketch, v: nat): Sketch
    requires |s.buckets| == 25
  {
    Sketch(s.count + 1, s.sumMs + v,
           if s.count == 0 then v else Min(s.minMs, v),
           if s.count == 0 then v else Max(s.maxMs, v),
           s.buckets[BucketOf(v) := s.buckets[BucketOf(v)] + 1])
  }

  function Merged(s: Sketch, t: Sketch): (r: Sketch)
    requires Valid(s) && Valid(t)
    ensures Valid(r)
  {
    if t.count == 0 then s
    else if s.count == 0 then t
    else Sketch(s.count + t.count, s.sumMs + t.sumMs, Min(s.minMs, t.minMs), Max(s.maxMs, t.maxMs),
                seq(25, i requires 0 <= i < 25 => s.buckets[i] + t.buckets[i]))
  }

  lemma MergeCommutes(s: Sketch, t: Sketch)
    requires Valid(s) && Valid(t)
    ensures Merged(s, t) == Merged(t, s)
  {
  }

  lemma MergeAssociates(s: Sketch, t: Sketch, u: Sketch)
    requires Valid(s) && Valid(t) && Valid(u)
    ensures Merged(Merged(s, t), u) == Merged(s, Merged(t, u))
  {
  }

  /** The sketch of some latencies recorded one after the other. */
  function SketchOf(vs: seq<nat>): (s: Sketch)
    ensures Valid(s) && s.count == |vs|
  {
    if vs == [] then Empty() else Recorded(SketchOf(vs[..|vs| - 1]), vs[|vs| - 1])
  }

  lemma RecordIsMerge(s: Sketch, v: nat)
    requires Valid(s)
    ensures Recorded(s, v) == Merged(s, SketchOf([v]))
  {
    var one := SketchOf([v]);
    assert one == Recorded(Empty(), v);
    if s.count == 0 {
    } else {
      assert Recorded(s, v).buckets == Merged(s, one).buckets;
    }
  }

  /** Merging sketches is recording everything in one of them: what was recorded where, and how often
      sketches were merged in between, leaves no trace. */
  lemma {:induction false} MergeIsConcat(a: seq<nat>, b: seq<nat>)
    ensures Merged(SketchOf(a), SketchOf(b)) == SketchOf(a + b)
  {
    if b == [] {
      assert a + b == a;
    } else {
      var front, v := b[..|b| - 1], b[|b| - 1];
      assert (a + b)[..|a + b| - 1] == a + front;
      assert SketchOf(a + b) == Recorded(SketchOf(a + front), v);
      hide Recorded, Merged;
      MergeIsConcat(a, front);
      RecordIsMerge(SketchOf(front), v);
      RecordIsMerge(SketchOf(a + front), v);
      MergeAssociates(SketchOf(a), SketchOf(front), SketchOf([v]));
    }
  }

  // ---------------------------------------------------------------- percentiles

  function Ceil(x: real): int {
    -((-x).Floor)
  }

  /** `Math.round`: halves go up. */
  function Round(x: real): int {
    (x + 0.5).Floor
  }

  /** Which of `n` values, counted from the smallest, the percentile asks for. */
  function Rank(p: real, n: nat): int {
    Ceil(p / 100.0 * n as real)
  }

  /** How many values lie in the first `i` buckets. */
  function Prefix(b: seq<nat>, i: nat): nat
    requires i <= |b|
  {
    if i == 0 then 0 else Prefix(b, i - 1) + b[i - 1]
  }

  /** The first bucket from `i` on that reaches `rank`, or the overflow bucket. */
  function Locate(b: seq<nat>, rank: int, i: nat): (k: nat)
    requires |b| == 25 && i <= OVERFLOW && Prefix(b, i) < rank
    ensures i <= k <= OVERFLOW && Prefix(b, k) < rank
    ensures k < OVERFLOW ==> rank <= Prefix(b, k + 1)
    decreases OVERFLOW - i
  {
    if i == OVERFLOW || Prefix(b, i + 1) >= rank then i else Locate(b, rank, i + 1)
  }

  lemma NothingBefore(b: seq<nat>)
    ensures Prefix(b, 0) == 0 && Floor(0) == 0
  {
  }

  lemma LocateStep(b: seq<nat>, rank: int, i: nat)
    requires |b| == 25 && i < OVERFLOW && Prefix(b, i) < rank
    ensures Prefix(b, i + 1) == Prefix(b, i) + b[i] && Floor(i + 1) == Bound(i)
    ensures Prefix(b, i + 1) >= rank ==> Locate(b, rank, i) == i
    ensures Prefix(b, i + 1) < rank ==> Locate(b, rank, i) == Locate(b, rank, i + 1)
  {
    hide Bound;
  }

  lemma LocateEnds(b: seq<nat>, rank: int)
    requires |b| == 25 && Prefix(b, OVERFLOW) < rank
    ensures Locate(b, rank, OVERFLOW) == OVERFLOW
  {
  }

  /** The point of a bucket from `lo` to `hi` at which `part` of its `whole` values are passed, if
      they are evenly spread. */
  function Interpolate(lo: nat, hi: nat, part: int, whole: nat): real
    requires whole > 0
  {
    var fraction := part as real / whole as real;
    lo as real + fraction * (hi - lo) as real
  }

  function Clamp(lo: int, hi: int, x: int): int {
    if (if lo > x then lo else x) < hi then (if lo > x then lo else x) else hi
  }

  /** The estimate of the `rank`-th smallest value. */
  function AtRank(s: Sketch, rank: int): int
    requires |s.buckets| == 25 && rank > 0
  {
    var k := Locate(s.buckets, rank, 0);
    if k == OVERFLOW then s.maxMs
    else if s.buckets[k] == 0 then Bound(k)
    else Clamp(s.minMs, s.maxMs, Round(Interpolate(Floor(k), Bound(k), rank - Prefix(s.buckets, k), s.buckets[k])))
  }

  function Percentile(s: Sketch, p: real): int
    requires |s.buckets| == 25
  {
    if s.count == 0 then 0
    else if p <= 0.0 then s.minMs
    else if p >= 100.0 then s.maxMs
    else
      RankInRange(p, s.count);
      AtRank(s, Rank(p, s.count))
  }

  lemma RankInRange(p: real, n: nat)
    requires 0.0 < p < 100.0 && n > 0
    ensures 1 <= Rank(p, n) <= n
  {
    var f, m := p / 100.0, n as real;
    assert 0.0 < f < 1.0;
    assert 0.0 < f * m;
    assert f * m < m;
  }

  lemma RankMonotone(p: real, q: real, n: nat)
    requires p <= q
    ensures Rank(p, n) <= Rank(q, n)
  {
    var f, g, m := p / 100.0, q / 100.0, n as real;
    assert f <= g && f * m <= g * m;
  }

  // ---------------------------------------------------------------- the value asked for

  predicate Le(a: nat, b: nat) { a <= b }

  /** The true `k`-th smallest of some latencies. */
  function KthSmallest(vs: seq<nat>, k: int): nat
    requires 1 <= k <= |vs|
  {
    assert |multiset(Sort(Le, vs))| == |multiset(vs)|;
    Sort(Le, vs)[k - 1]
  }

  function CountAtMost(vs: seq<nat>, b: nat): nat {
    if vs == [] then 0 else (if vs[0] <= b then 1 else 0) + CountAtMost(vs[1..], b)
  }

  lemma {:induction false} CountConcat(a: seq<nat>, v: nat, b: nat)
    ensures CountAtMost(a + [v], b) == CountAtMost(a, b) + if v <= b then 1 else 0
  {
    if a == [] {
      assert (a + [v])[1..] == [];
    } else {
      assert (a + [v])[1..] == a[1..] + [v];
      CountConcat(a[1..], v, b);
    }
  }

  lemma {:induction false} CountInsert(x: nat, s: seq<nat>, b: nat)
    ensures CountAtMost(Insert(Le, x, s), b) == CountAtMost(s, b) + if x <= b then 1 else 0
  {
    if s == [] || Le(x, s[0]) {
      assert ([x] + s)[1..] == s;
    } else {
      CountInsert(x, s[1..], b);
      assert Insert(Le, x, s)[1..] == Insert(Le, x, s[1..]);
    }
  }

  lemma {:induction false} CountSort(s: seq<nat>, b: nat)
    ensures CountAtMost(Sort(Le, s), b) == CountAtMost(s, b)
  {
    if s != [] {
      CountSort(s[1..], b);
      CountInsert(s[0], Sort(Le, s[1..]), b);
    }
  }

  lemma {:induction false} SortedCount(s: seq<nat>, b: nat, k: nat)
    requires Sorted(Le, s) && 1 <= k <= |s|
    ensures s[k - 1] <= b <==> k <= CountAtMost(s, b)
  {
    if s[0] > b {
      NoneAtMost(s, b);
      assert k > 1 ==> Le(s[0], s[k - 1]);
    } else if k > 1 {
      SortedCount(s[1..], b, k - 1);
    }
  }

  lemma {:induction false} NoneAtMost(s: seq<nat>, b: nat)
    requires forall i :: 0 <= i < |s| ==> s[i] > b || (i > 0 && Le(s[0], s[i]) && s[0] > b)
    ensures CountAtMost(s, b) == 0
  {
    if s != [] {
      NoneAtMost(s[1..], b);
    }
  }

  /** A value is the `k`-th smallest or below exactly when at least `k` values are at most it. */
  lemma KthCount(vs: seq<nat>, k: int, b: nat)
    requires 1 <= k <= |vs|
    ensures KthSmallest(vs, k) <= b <==> k <= CountAtMost(vs, b)
    ensures KthSmallest(vs, k) in vs
  {
    assert TotalPreorder(Le);
    SortSorted(Le, vs);
    CountSort(vs, b);
    assert |multiset(Sort(Le, vs))| == |multiset(vs)|;
    SortedCount(Sort(Le, vs), b, k);
    assert KthSmallest(vs, k) in multiset(Sort(Le, vs));
  }

  // ---------------------------------------------------------------- sketch against values

  lemma {:induction false} PrefixBump(b: seq<nat>, k: nat, i: nat)
    requires k < |b| && i <= |b|
    ensures Prefix(b[k := b[k] + 1], i) == Prefix(b, i) + if k < i then 1 else 0
  {
    if i > 0 {
      PrefixBump(b, k, i - 1);
    }
  }

  lemma {:induction false} EmptyPrefix(i: nat)
    requires i <= 25
    ensures Prefix(Empty().buckets, i) == 0
  {
    if i > 0 {
      EmptyPrefix(i - 1);
    }
  }

  lemma PrefixRecorded(s: Sketch, v: nat, i: nat)
    requires Valid(s) && i < OVERFLOW
    ensures Prefix(Recorded(s, v).buckets, i + 1) == Prefix(s.buckets, i + 1) + if v <= Bound(i) then 1 else 0
  {
    hide BucketOf, Bound, Prefix;
    PrefixBump(s.buckets, BucketOf(v), i + 1);
    BucketsSplit(v, i);
  }

  lemma {:induction false} PrefixCounts(vs: seq<nat>, i: nat)
    requires i < OVERFLOW
    ensures Prefix(SketchOf(vs).buckets, i + 1) == CountAtMost(vs, Bound(i))
  {
    hide Recorded, Bound, Prefix, BucketOf;
    if vs == [] {
      EmptyPrefix(i + 1);
    } else {
      var front, v := vs[..|vs| - 1], vs[|vs| - 1];
      assert vs == front + [v];
      PrefixCounts(front, i);
      CountConcat(front, v, Bound(i));
      PrefixRecorded(SketchOf(front), v, i);
    }
  }

  lemma {:induction false} Extremes(vs: seq<nat>, v: nat)
    requires v in vs
    ensures SketchOf(vs).minMs <= v <= SketchOf(vs).maxMs
  {
    var front, last := vs[..|vs| - 1], vs[|vs| - 1];
    assert vs == front + [last];
    if v in front {
      Extremes(front, v);
    }
  }

  /** The bucket the walk stops in is the bucket of the true value. */
  lemma LocateFindsBucket(vs: seq<nat>, rank: int)
    requires 1 <= rank <= |vs|
    ensures Locate(SketchOf(vs).buckets, rank, 0) == BucketOf(KthSmallest(vs, rank))
  {
    var x, b := KthSmallest(vs, rank), SketchOf(vs).buckets;
    var k := Locate(b, rank, 0);
    if k < OVERFLOW {
      PrefixCounts(vs, k);
      KthCount(vs, rank, Bound(k));
      BucketsSplit(x, k);
    }
    if k > 0 {
      PrefixCounts(vs, k - 1);
      KthCount(vs, rank, Bound(k - 1));
      BucketsSplit(x, k - 1);
    }
  }

  lemma RoundWithin(lo: nat, hi: nat, x: real)
    requires lo <= hi && 0.0 <= x <= (hi - lo) as real
    ensures lo <= Round(lo as real + x) <= hi
  {
  }

  lemma InterpolateWithin(lo: nat, hi: nat, part: int, whole: nat)
    requires 0 < part <= whole && lo <= hi
    ensures lo <= Round(Interpolate(lo, hi, part, whole)) <= hi
  {
    var f, w := part as real / whole as real, (hi - lo) as real;
    assert Interpolate(lo, hi, part, whole) == lo as real + f * w;
    hide Round, Interpolate;
    PartOfWhole(part, whole);
    var x := PartOfWidth(f, w);
    RoundWithin(lo, hi, x);
  }

  lemma PartOfWhole(part: int, whole: nat)
    requires 0 < part <= whole
    ensures 0.0 <= part as real / whole as real <= 1.0
  {
    Quotient(part as real, whole as real);
  }

  lemma Quotient(x: real, y: real)
    requires 0.0 < x <= y
    ensures 0.0 <= x / y <= 1.0
  {
  }

  lemma ProductSign(a: real, b: real)
    requires a >= 0.0 && b >= 0.0
    ensures a * b >= 0.0
  {
  }

  lemma PartOfWidth(f: real, w: real) returns (x: real)
    requires 0.0 <= f <= 1.0 && w >= 0.0
    ensures x == f * w && 0.0 <= x <= w
  {
    x := f * w;
    ProductSign(f, w);
    ProductSign(1.0 - f, w);
    assert (1.0 - f) * w == w - f * w;
  }

  /** The estimate before clamping, in a bucket that holds the rank. */
  function Inside(s: Sketch, rank: int, k: nat): int
    requires |s.buckets| == 25 && k < OVERFLOW && s.buckets[k] > 0
  {
    Round(Interpolate(Floor(k), Bound(k), rank - Prefix(s.buckets, k), s.buckets[k]))
  }

  /** The walk stops in a bucket that is not empty, or runs into the overflow bucket. */
  lemma AtRankCases(s: Sketch, rank: int)
    requires |s.buckets| == 25 && rank > 0
    ensures var k := Locate(s.buckets, rank, 0);
            && (k == OVERFLOW ==> AtRank(s, rank) == s.maxMs)
            && (k < OVERFLOW ==>
                  && 0 < rank - Prefix(s.buckets, k) <= s.buckets[k]
                  && Floor(k) <= Inside(s, rank, k) <= Bound(k)
                  && AtRank(s, rank) == Clamp(s.minMs, s.maxMs, Inside(s, rank, k)))
  {
    hide Interpolate, Bound, Floor, Locate, Round;
    var k := Locate(s.buckets, rank, 0);
    if k < OVERFLOW {
      FloorBelow(k);
      InterpolateWithin(Floor(k), Bound(k), rank - Prefix(s.buckets, k), s.buckets[k]);
    }
  }

  /** Estimates lie between the extremes and within one bucket width of the true value; the overflow
      bucket has no width, and there the largest value is given. The branch for an empty bucket is
      never taken. */
  lemma AtRankIsClose(vs: seq<nat>, rank: int)
    requires 1 <= rank <= |vs|
    ensures var s, r, x := SketchOf(vs), AtRank(SketchOf(vs), rank), KthSmallest(vs, rank);
            var b := BucketOf(x);
            && s.minMs <= r <= s.maxMs
            && (b < OVERFLOW ==> s.buckets[b] > 0 && -(Bound(b) - Floor(b)) <= r - x <= Bound(b) - Floor(b))
            && (b == OVERFLOW ==> r == s.maxMs)
  {
    hide AtRank, Inside, Bound, SketchOf, KthSmallest, Locate, BucketOf, Prefix;
    var x := KthSmallest(vs, rank);
    LocateFindsBucket(vs, rank);
    KthCount(vs, rank, 0);
    Extremes(vs, x);
    AtRankCases(SketchOf(vs), rank);
  }

  lemma PercentileIsClose(vs: seq<nat>, p: real)
    requires vs != [] && 0.0 < p < 100.0
    ensures 1 <= Rank(p, |vs|) <= |vs|
    ensures var s, r, x := SketchOf(vs), Percentile(SketchOf(vs), p), KthSmallest(vs, Rank(p, |vs|));
            var b := BucketOf(x);
            && s.minMs <= r <= s.maxMs
            && (b < OVERFLOW ==> s.buckets[b] > 0 && -(Bound(b) - Floor(b)) <= r - x <= Bound(b) - Floor(b))
            && (b == OVERFLOW ==> r == s.maxMs)
  {
    RankInRange(p, |vs|);
    AtRankIsClose(vs, Rank(p, |vs|));
  }

  lemma InterpolateMonotone(lo: nat, hi: nat, a: int, b: int, whole: nat)
    requires a <= b && whole > 0 && lo <= hi
    ensures Round(Interpolate(lo, hi, a, whole)) <= Round(Interpolate(lo, hi, b, whole))
  {
    var f, g, w := a as real / whole as real, b as real / whole as real, (hi - lo) as real;
    assert f <= g;
    assert f * w <= g * w;
  }

  lemma {:induction false} PrefixMonotone(b: seq<nat>, i: nat, j: nat)
    requires i <= j <= |b|
    ensures Prefix(b, i) <= Prefix(b, j)
  {
    if i < j {
      PrefixMonotone(b, i, j - 1);
    }
  }

  lemma AtRankMonotone(vs: seq<nat>, i: int, j: int)
    requires 1 <= i <= j <= |vs|
    ensures AtRank(SketchOf(vs), i) <= AtRank(SketchOf(vs), j)
  {
    hide AtRank, Bound, SketchOf, KthSmallest, Locate, BucketOf, Interpolate, Round;
    var s := SketchOf(vs);
    var b, k, l := s.buckets, Locate(s.buckets, i, 0), Locate(s.buckets, j, 0);
    AtRankIsClose(vs, i);
    AtRankIsClose(vs, j);
    AtRankCases(s, i);
    AtRankCases(s, j);
    if l < k {
      PrefixMonotone(b, l + 1, k);
    } else if l < OVERFLOW {
      if k == l {
        FloorBelow(k);
        InterpolateMonotone(Floor(k), Bound(k), i - Prefix(b, k), j - Prefix(b, k), b[k]);
      } else if k < l - 1 {
        BoundsIncrease(k, l - 1);
      }
    } else {
      LocateFindsBucket(vs, j);
    }
  }

  /** A higher percentile is never a smaller estimate. */
  lemma PercentileMonotone(vs: seq<nat>, p: real, q: real)
    requires p <= q
    ensures Percentile(SketchOf(vs), p) <= Percentile(SketchOf(vs), q)
  {
    var s := SketchOf(vs);
    if vs != [] {
      Extremes(vs, vs[0]);
      if 0.0 < p && q < 100.0 {
        PercentileIsClose(vs, p);
        PercentileIsClose(vs, q);
        RankMonotone(p, q, |vs|);
        AtRankMonotone(vs, Rank(p, |vs|), Rank(q, |vs|));
      } else if 0.0 < p < 100.0 {
        PercentileIsClose(vs, p);
      } else if 0.0 < q < 100.0 {
        PercentileIsClose(vs, q);
      }
    }
  }

  // ---------------------------------------------------------------- stored form

  /** The stored form of a sketch keeps the buckets that are not empty. */
  datatype Data = Data(count: nat, sumMs: nat, minMs: nat, maxMs: nat, buckets: map<nat, nat>)

  function ToJson(s: Sketch): Data
    requires |s.buckets| == 25
  {
    Data(s.count, s.sumMs, s.minMs, s.maxMs,
         map i: nat | i < 25 && s.buckets[i] > 0 :: s.buckets[i])
  }

  function FromJson(d: Data): Sketch {
    Sketch(d.count, d.sumMs, d.minMs, d.maxMs,
           seq(25, i requires 0 <= i < 25 => if i in d.buckets then d.buckets[i] else 0))
  }

  lemma StoreRoundTrip(s: Sketch)
    requires |s.buckets| == 25
    ensures FromJson(ToJson(s)) == s
  {
    assert FromJson(ToJson(s)).buckets == s.buckets;
  }

  // ---------------------------------------------------------------- the sketch object

  class LatencyDistributionSketch {
    var count: nat
    var sumMs: nat
    var minMs: nat
    var maxMs: nat
    var buckets: seq<nat>

    ghost function Value(): Sketch
      reads this
    {
      Sketch(count, sumMs, minMs, maxMs, buckets)
    }

    constructor (data: Option<Data>)
      ensures Value() == if data.Some? then FromJson(data.value) else Empty()
    {
      count, sumMs, minMs, maxMs := 0, 0, 0, 0;
      buckets := seq(25, _ => 0);
      new;
      if data.Some? {
        count, sumMs, minMs, maxMs := data.value.count, data.value.sumMs, data.value.minMs, data.value.maxMs;
        var stored := data.value.buckets;
        for i := 0 to 25
          invariant Value() == Sketch(data.value.count, data.value.sumMs, data.value.minMs, data.value.maxMs, buckets)
          invariant |buckets| == 25
          invariant forall k :: 0 <= k < i ==> buckets[k] == FromJson(data.value).buckets[k]
          invariant forall k :: i <= k < 25 ==> buckets[k] == 0
        {
          if i in stored {
            buckets := buckets[i := buckets[i] + stored[i]];
          }
        }
      }
    }

    method Record(latencyMs: real)
      requires |buckets| == 25
      modifies this
      ensures latencyMs < 0.0 ==> Value() == old(Value())
      ensures latencyMs >= 0.0 ==> Value() == Recorded(old(Value()), Round(latencyMs))
    {
      hide Bound, BucketOf;
      if latencyMs < 0.0 {
        return;
      }
      var roundedMs := Round(latencyMs);
      if count == 0 {
        minMs, maxMs := roundedMs, roundedMs;
      } else {
        if roundedMs < minMs { minMs := roundedMs; }
        if roundedMs > maxMs { maxMs := roundedMs; }
      }
      count := count + 1;
      sumMs := sumMs + roundedMs;
      CountInBucket(roundedMs);
    }

    method CountInBucket(value: nat)
      requires |buckets| == 25
      modifies this`buckets
      ensures buckets == old(buckets)[BucketOf(value) := old(buckets)[BucketOf(value)] + 1]
    {
      hide Bound;
      for i := 0 to OVERFLOW
        invariant i > 0 ==> Bound(i - 1) < value
        invariant buckets == old(buckets)
        invariant BucketOf(value) == FirstBucket(value, i)
      {
        if value <= Bound(i) {
          buckets := buckets[i := buckets[i] + 1];
          return;
        }
      }
      buckets := buckets[OVERFLOW := buckets[OVERFLOW] + 1];
    }

    /** A sketch may be merged into itself. */
    method Merge(other: LatencyDistributionSketch)
      requires Valid(Value()) && Valid(other.Value())
      modifies this
      ensures Value() == Merged(old(Value()), old(other.Value()))
    {
      if other.count == 0 {
        return;
      }
      if count == 0 {
        count, sumMs, minMs, maxMs := other.count, other.sumMs, other.minMs, other.maxMs;
      } else {
        count := count + other.count;
        sumMs := sumMs + other.sumMs;
        if other.minMs < minMs { minMs := other.minMs; }
        if other.maxMs > maxMs { maxMs := other.maxMs; }
      }
      for i := 0 to 25
        invariant |buckets| == 25 && |other.buckets| == 25
        invariant forall k :: 0 <= k < i ==> buckets[k] == old(buckets[k]) + old(other.buckets[k])
        invariant forall k :: i <= k < 25 ==> buckets[k] == old(buckets[k]) && other.buckets[k] == old(other.buckets[k])
        invariant Sketch(count, sumMs, minMs, maxMs, []) == Merged(old(Value()), old(other.Value())).(buckets := [])
      {
        buckets := buckets[i := buckets[i] + other.buckets[i]];
      }
      assert buckets == Merged(old(Value()), old(other.Value())).buckets;
    }

    method GetPercentile(p: real) returns (r: int)
      requires |buckets| == 25
      ensures r == Percentile(Value(), p)
    {
      hide Bound, Interpolate, Round, Clamp;
      if count == 0 { return 0; }
      if p <= 0.0 { return minMs; }
      if p >= 100.0 { return maxMs; }
      RankInRange(p, count);
      var rank := Rank(p, count);
      assert Percentile(Value(), p) == AtRank(Value(), rank);
      hide Percentile, Rank, Locate, Prefix, Floor;
      NothingBefore(buckets);
      var cumulative := 0;
      var prevBound := 0;
      for i := 0 to OVERFLOW
        invariant cumulative == Prefix(buckets, i) < rank
        invariant prevBound == Floor(i)
        invariant Locate(buckets, rank, 0) == Locate(buckets, rank, i)
      {
        var bucketCount := buckets[i];
        cumulative := cumulative + bucketCount;
        LocateStep(buckets, rank, i);
        if cumulative >= rank {
          var rankInBucket := rank - (cumulative - bucketCount);
          // The source answers with the bound of an empty bucket here; a bucket holding the rank
          // is never empty.
          if bucketCount == 0 {
            assert false;
          }
          var estimate := Interpolate(prevBound, Bound(i), rankInBucket, bucketCount);
          return Clamp(minMs, maxMs, Round(estimate));
        }
        prevBound := Bound(i);
      }
      LocateEnds(buckets, rank);
      return maxMs;
    }

    method ToJSON() returns (d: Data)
      requires |buckets| == 25
      ensures d == ToJson(Value())
      ensures FromJson(d) == Value()
    {
      var stored: map<nat, nat> := map[];
      for i := 0 to 25
        invariant stored == map k: nat | k < i && buckets[k] > 0 :: buckets[k]
      {
        if buckets[i] > 0 {
          stored := stored[i := buckets[i]];
        }
      }
      d := Data(count, sumMs, minMs, maxMs, stored);
      StoreRoundTrip(Value());
    }
  }
}
