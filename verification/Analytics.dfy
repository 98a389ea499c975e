/** Usage rollups (packages/analytics/src/repository.ts, projector.ts, query-service.ts and
    rebuild.ts): every projected fact is folded into an hour rollup and a day rollup. Times are
    integer milliseconds since the epoch, in UTC. */
module Analytics {
  import opened Collections
  import opened LatencySketch
  import Sorting

  const HOUR: int := 3600000
  const DAY: int := 86400000

  datatype Granularity = Minute | Hour | Day

  function Width(g: Granularity): int {
    match g
    case Minute => 60000
    case Hour => HOUR
    case Day => DAY
  }

  /** The start of the bucket that holds `t`; clearing the smaller UTC fields of a date rounds down,
      before the epoch too. */
  function BucketStart(g: Granularity, t: int): int {
    t - t % Width(g)
  }

  function BucketEnd(g: Granularity, t: int): int {
    BucketStart(g, t) + Width(g) - 1
  }

  // ---------------------------------------------------------------- metrics

  datatype Counts = Counts(
    requestsTotal: int, requestsCompleted: int, requestsFailed: int, requestsCancelled: int,
    requestsRejected: int, providerAttempts: int, retryAttempts: int, fallbackAttempts: int,
    streamRequests: int, inputTokens: int, outputTokens: int, totalTokens: int,
    cachedInputTokens: int, reasoningTokens: int, providerInputTokens: int,
    providerOutputTokens: int, providerTotalTokens: int)

  function NoCounts(): Counts {
    Counts(0, 0, 0, 0, 0, 0, 0, 0, 0, 0, 0, 0, 0, 0, 0, 0, 0)
  }

  function AddCounts(a: Counts, b: Counts): Counts {
    Counts(a.requestsTotal + b.requestsTotal, a.requestsCompleted + b.requestsCompleted,
           a.requestsFailed + b.requestsFailed, a.requestsCancelled + b.requestsCancelled,
           a.requestsRejected + b.requestsRejected, a.providerAttempts + b.providerAttempts,
           a.retryAttempts + b.retryAttempts, a.fallbackAttempts + b.fallbackAttempts,
           a.streamRequests + b.streamRequests, a.inputTokens + b.inputTokens,
           a.outputTokens + b.outputTokens, a.totalTokens + b.totalTokens,
           a.cachedInputTokens + b.cachedInputTokens, a.reasoningTokens + b.reasoningTokens,
           a.providerInputTokens + b.providerInputTokens, a.providerOutputTokens + b.providerOutputTokens,
           a.providerTotalTokens + b.providerTotalTokens)
  }

  function At(m: map<string, int>, k: string): int {
    if k in m then m[k] else 0
  }

  /** Counts by name, added up. */
  function AddMaps(a: map<string, int>, b: map<string, int>): map<string, int> {
    map k | k in a.Keys + b.Keys :: At(a, k) + At(b, k)
  }

  datatype Metrics = Metrics(counts: Counts, latency: Data, ttft: Data, errors: map<string, int>,
                             policyDenials: map<string, int>, quotaDenials: map<string, int>)

  function NoData(): Data {
    ToJson(Empty())
  }

  function NoMetrics(): Metrics {
    Metrics(NoCounts(), NoData(), NoData(), map[], map[], map[])
  }

  /** Stored sketches are those that storing a sketch produces. */
  ghost predicate Stored(d: Data) {
    Valid(FromJson(d)) && ToJson(FromJson(d)) == d
  }

  ghost predicate Proper(m: Metrics) {
    Stored(m.latency) && Stored(m.ttft)
  }

  /** `new LatencyDistributionSketch(a).merge(b).toJSON()` */
  function MergeData(a: Data, b: Data): (r: Data)
    requires Valid(FromJson(a)) && Valid(FromJson(b))
    ensures Stored(r)
  {
    StoreRoundTrip(Merged(FromJson(a), FromJson(b)));
    ToJson(Merged(FromJson(a), FromJson(b)))
  }

  function Merge(a: Metrics, b: Metrics): (r: Metrics)
    requires Proper(a) && Proper(b)
    ensures Proper(r)
  {
    Metrics(AddCounts(a.counts, b.counts), MergeData(a.latency, b.latency), MergeData(a.ttft, b.ttft),
            AddMaps(a.errors, b.errors), AddMaps(a.policyDenials, b.policyDenials),
            AddMaps(a.quotaDenials, b.quotaDenials))
  }

  lemma SketchDataStored(s: Sketch)
    requires Valid(s)
    ensures Stored(ToJson(s))
  {
    StoreRoundTrip(s);
  }

  lemma MergeDataLaws(a: Data, b: Data, c: Data)
    requires Stored(a) && Stored(b) && Stored(c)
    ensures MergeData(a, b) == MergeData(b, a)
    ensures MergeData(MergeData(a, b), c) == MergeData(a, MergeData(b, c))
    ensures Stored(NoData()) && MergeData(NoData(), a) == a
  {
    var s, t, u := FromJson(a), FromJson(b), FromJson(c);
    MergeCommutes(s, t);
    MergeAssociates(s, t, u);
    StoreRoundTrip(Merged(s, t));
    StoreRoundTrip(Merged(t, u));
    StoreRoundTrip(Empty());
    MergeCommutes(Empty(), s);
  }

  lemma AddMapsAssociates(a: map<string, int>, b: map<string, int>, c: map<string, int>)
    ensures AddMaps(AddMaps(a, b), c) == AddMaps(a, AddMaps(b, c))
  {
    var l, r := AddMaps(AddMaps(a, b), c), AddMaps(a, AddMaps(b, c));
    assert l.Keys == a.Keys + b.Keys + c.Keys == r.Keys;
    forall k | k in l.Keys ensures l[k] == r[k] {
      assert At(AddMaps(a, b), k) == At(a, k) + At(b, k);
      assert At(AddMaps(b, c), k) == At(b, k) + At(c, k);
    }
  }

  lemma AddMapsLaws(a: map<string, int>, b: map<string, int>, c: map<string, int>)
    ensures AddMaps(a, b) == AddMaps(b, a)
    ensures AddMaps(AddMaps(a, b), c) == AddMaps(a, AddMaps(b, c))
    ensures AddMaps(map[], a) == a
  {
    assert AddMaps(a, b).Keys == AddMaps(b, a).Keys;
    AddMapsAssociates(a, b, c);
  }

  /** Merging is commutative and associative, and merging nothing changes nothing. */
  lemma MergeLaws(a: Metrics, b: Metrics, c: Metrics)
    requires Proper(a) && Proper(b) && Proper(c)
    ensures Merge(a, b) == Merge(b, a)
    ensures Merge(Merge(a, b), c) == Merge(a, Merge(b, c))
    ensures Proper(NoMetrics()) && Merge(NoMetrics(), a) == a
  {
    MergeDataLaws(a.latency, b.latency, c.latency);
    MergeDataLaws(a.ttft, b.ttft, c.ttft);
    AddMapsLaws(a.errors, b.errors, c.errors);
    AddMapsLaws(a.policyDenials, b.policyDenials, c.policyDenials);
    AddMapsLaws(a.quotaDenials, b.quotaDenials, c.quotaDenials);
  }

  lemma Exchange(a: Metrics, b: Metrics, m: Metrics)
    requires Proper(a) && Proper(b) && Proper(m)
    ensures Merge(Merge(a, m), b) == Merge(Merge(a, b), m)
  {
    MergeLaws(a, m, b);
    MergeLaws(m, b, a);
    MergeLaws(a, b, m);
  }

  // ---------------------------------------------------------------- rollups

  datatype Dims = Dims(org: string, workspace: string, apiKey: Option<string>, model: Option<string>,
                       provider: Option<string>, route: Option<string>)

  datatype Rollup = Rollup(dims: Dims, bucket: Granularity, start: int, end: int, metrics: Metrics)

  /** The key a rollup is filed under: an absent dimension and an empty one are the same. */
  datatype RollupKey = RollupKey(bucket: Granularity, start: int, org: string, workspace: string,
                                 apiKey: string, model: string, provider: string, route: string)

  function KeyFor(g: Granularity, start: int, d: Dims): RollupKey {
    RollupKey(g, start, d.org, d.workspace, d.apiKey.GetOr(""), d.model.GetOr(""), d.provider.GetOr(""),
              d.route.GetOr(""))
  }

  function KeyOf(r: Rollup): RollupKey {
    KeyFor(r.bucket, r.start, r.dims)
  }

  type Rollups = Entries<RollupKey, Rollup>

  /** What a store of rollups always looks like. */
  ghost predicate WellKept(rs: Rollups) {
    && Distinct(rs)
    && (forall i :: 0 <= i < |rs| ==> KeyOf(rs[i].1) == rs[i].0 && Proper(rs[i].1.metrics))
    && (forall i :: 0 <= i < |rs| ==> rs[i].1.end == rs[i].1.start + Width(rs[i].1.bucket) - 1)
  }

  function SaveRollup(rs: Rollups, r: Rollup): Rollups
    requires Proper(r.metrics)
    requires Get(rs, KeyOf(r)).Some? ==> Proper(Get(rs, KeyOf(r)).value.metrics)
  {
    match Get(rs, KeyOf(r))
    case None => Put(rs, KeyOf(r), r)
    case Some(existing) => Put(rs, KeyOf(r), existing.(metrics := Merge(existing.metrics, r.metrics)))
  }

  function MetricsAt(rs: Rollups, k: RollupKey): Metrics {
    match Get(rs, k)
    case None => NoMetrics()
    case Some(r) => r.metrics
  }

  /** Every dimension and every bucket but the record's own is left alone. */
  lemma SaveEffect(rs: Rollups, r: Rollup, q: RollupKey)
    requires WellKept(rs) && Proper(r.metrics) && r.end == r.start + Width(r.bucket) - 1
    ensures Get(rs, KeyOf(r)).Some? ==> Proper(Get(rs, KeyOf(r)).value.metrics)
    ensures WellKept(SaveRollup(rs, r)) && Proper(MetricsAt(rs, q))
    ensures MetricsAt(SaveRollup(rs, r), q) ==
            if q == KeyOf(r) then Merge(MetricsAt(rs, q), r.metrics) else MetricsAt(rs, q)
  {
    var k := KeyOf(r);
    StoredMetrics(rs, k);
    StoredMetrics(rs, q);
    var v := match Get(rs, k) case None => r case Some(e) => e.(metrics := Merge(e.metrics, r.metrics));
    GetPut(rs, k, v, q);
    PutDistinct(rs, k, v);
    MergeLaws(r.metrics, r.metrics, r.metrics);
    WellKeptPut(rs, k, v);
  }

  lemma StoredMetrics(rs: Rollups, k: RollupKey)
    requires WellKept(rs)
    ensures var r := Get(rs, k);
            r.Some? ==> KeyOf(r.value) == k && Proper(r.value.metrics) &&
                        r.value.end == r.value.start + Width(r.value.bucket) - 1
    ensures Proper(MetricsAt(rs, k))
  {
    SketchDataStored(Empty());
  }

  lemma {:induction false} WellKeptPut(rs: Rollups, k: RollupKey, r: Rollup)
    requires WellKept(rs) && KeyOf(r) == k && Proper(r.metrics) && r.end == r.start + Width(r.bucket) - 1
    ensures WellKept(Put(rs, k, r))
  {
    PutDistinct(rs, k, r);
    var s := Put(rs, k, r);
    GetPut(rs, k, r, k);
    forall i | 0 <= i < |s|
      ensures KeyOf(s[i].1) == s[i].0 && Proper(s[i].1.metrics)
      ensures s[i].1.end == s[i].1.start + Width(s[i].1.bucket) - 1
    {
      GetAt(s, i);
      if s[i].0 != k {
        GetPut(rs, k, r, s[i].0);
        StoredMetrics(rs, s[i].0);
      }
    }
  }

  // ---------------------------------------------------------------- projections

  /** What one projected fact adds to the rollups: once for its hour and once for its day. */
  datatype Fact = Fact(at: int, dims: Dims, metrics: Metrics)

  function RollupOf(f: Fact, g: Granularity): Rollup {
    Rollup(f.dims, g, BucketStart(g, f.at), BucketEnd(g, f.at), f.metrics)
  }

  ghost predicate AllProper(fs: seq<Fact>) {
    forall f :: f in fs ==> Proper(f.metrics)
  }

  /** The rollups after projecting some facts in order, starting from none. */
  function Projected(fs: seq<Fact>): (rs: Rollups)
    requires AllProper(fs)
    ensures WellKept(rs)
  {
    if fs == [] then []
    else
      var before, f := Projected(fs[..|fs| - 1]), fs[|fs| - 1];
      SaveEffect(before, RollupOf(f, Hour), KeyFor(Hour, 0, f.dims));
      var middle := SaveRollup(before, RollupOf(f, Hour));
      SaveEffect(middle, RollupOf(f, Day), KeyFor(Hour, 0, f.dims));
      SaveRollup(middle, RollupOf(f, Day))
  }

  function Front(fs: seq<Fact>): (r: seq<Fact>)
    requires fs != []
    ensures AllProper(fs) ==> AllProper(r)
  {
    fs[..|fs| - 1]
  }

  function Last(fs: seq<Fact>): (f: Fact)
    requires fs != []
    ensures AllProper(fs) ==> Proper(f.metrics)
  {
    fs[|fs| - 1]
  }

  lemma ProjectStep(fs: seq<Fact>)
    requires fs != [] && AllProper(fs)
    ensures var f, before := Last(fs), Projected(Front(fs));
            && Proper(f.metrics)
            && (Get(before, KeyOf(RollupOf(f, Hour))).Some? ==>
                  Proper(Get(before, KeyOf(RollupOf(f, Hour))).value.metrics))
            && var middle := SaveRollup(before, RollupOf(f, Hour));
            && (Get(middle, KeyOf(RollupOf(f, Day))).Some? ==>
                  Proper(Get(middle, KeyOf(RollupOf(f, Day))).value.metrics))
            && Projected(fs) == SaveRollup(middle, RollupOf(f, Day))
  {
    hide SaveRollup;
    var f, before := Last(fs), Projected(Front(fs));
    SaveEffect(before, RollupOf(f, Hour), KeyOf(RollupOf(f, Hour)));
    SaveEffect(SaveRollup(before, RollupOf(f, Hour)), RollupOf(f, Day), KeyOf(RollupOf(f, Day)));
  }

  /** A fact changes exactly two rollups. */
  lemma ProjectEffect(fs: seq<Fact>, q: RollupKey)
    requires fs != [] && AllProper(fs)
    ensures var f, before := Last(fs), Projected(Front(fs));
            && Proper(MetricsAt(before, q)) && Proper(f.metrics)
            && MetricsAt(Projected(fs), q) ==
               if q == KeyFor(Hour, BucketStart(Hour, f.at), f.dims) || q == KeyFor(Day, BucketStart(Day, f.at), f.dims)
               then Merge(MetricsAt(before, q), f.metrics) else MetricsAt(before, q)
  {
    ProjectStep(fs);
    hide SaveRollup, Merge, MetricsAt, BucketStart, Projected, Proper, WellKept, Distinct, AllProper;
    var f, before := Last(fs), Projected(Front(fs));
    SaveEffect(before, RollupOf(f, Hour), q);
    SaveEffect(SaveRollup(before, RollupOf(f, Hour)), RollupOf(f, Day), q);
  }

  /** The rollups of the first `n` hours of a day, merged. */
  function Hours(rs: Rollups, day: int, d: Dims, n: nat): (m: Metrics)
    requires WellKept(rs)
    ensures Proper(m)
  {
    SketchDataStored(Empty());
    if n == 0 then NoMetrics()
    else
      StoredMetrics(rs, KeyFor(Hour, day + (n - 1) * HOUR, d));
      Merge(Hours(rs, day, d, n - 1), MetricsAt(rs, KeyFor(Hour, day + (n - 1) * HOUR, d)))
  }

  predicate SameSeries(d: Dims, e: Dims) {
    KeyFor(Day, 0, d) == KeyFor(Day, 0, e)
  }

  lemma ProjectEffectHour(fs: seq<Fact>, day: int, d: Dims, h: int)
    requires fs != [] && AllProper(fs) && day % DAY == 0
    ensures var f, before, k := Last(fs), Projected(Front(fs)), KeyFor(Hour, day + h * HOUR, d);
            && Proper(f.metrics) && Proper(MetricsAt(before, k))
            && MetricsAt(Projected(fs), k) ==
               if SameSeries(d, f.dims) && day + h * HOUR <= f.at < day + (h + 1) * HOUR
               then Merge(MetricsAt(before, k), f.metrics) else MetricsAt(before, k)
  {
    hide Merge, Projected, MetricsAt, BucketStart;
    ProjectEffect(fs, KeyFor(Hour, day + h * HOUR, d));
    HourOfDay(day, Last(fs).at, h);
  }

  lemma HoursStep(rs: Rollups, day: int, d: Dims, n: nat)
    requires WellKept(rs)
    ensures n == 0 ==> Hours(rs, day, d, n) == NoMetrics()
    ensures n > 0 ==>
              var k := KeyFor(Hour, day + (n - 1) * HOUR, d);
              Proper(MetricsAt(rs, k)) && Hours(rs, day, d, n) == Merge(Hours(rs, day, d, n - 1), MetricsAt(rs, k))
  {
    if n > 0 {
      StoredMetrics(rs, KeyFor(Hour, day + (n - 1) * HOUR, d));
    }
  }

  lemma {:induction false} HoursEffect(fs: seq<Fact>, day: int, d: Dims, n: nat)
    requires fs != [] && AllProper(fs) && day % DAY == 0 && n <= 24
    ensures Proper(Last(fs).metrics)
    ensures Hours(Projected(fs), day, d, n) ==
            if SameSeries(d, Last(fs).dims) && day <= Last(fs).at < day + n * HOUR
            then Merge(Hours(Projected(Front(fs)), day, d, n), Last(fs).metrics)
            else Hours(Projected(Front(fs)), day, d, n)
  {
    hide *;
    var f, before := Last(fs), Projected(Front(fs));
    HoursStep(before, day, d, n);
    HoursStep(Projected(fs), day, d, n);
    if n > 0 {
      HoursEffect(fs, day, d, n - 1);
      ProjectEffectHour(fs, day, d, n - 1);
      var a, b := Hours(before, day, d, n - 1), MetricsAt(before, KeyFor(Hour, day + (n - 1) * HOUR, d));
      Exchange(a, b, f.metrics);
      MergeLaws(a, b, f.metrics);
    }
  }

  lemma HourOfDay(day: int, t: int, h: int)
    requires day % DAY == 0
    ensures BucketStart(Hour, t) == day + h * HOUR <==> day + h * HOUR <= t < day + (h + 1) * HOUR
    ensures BucketStart(Day, t) == day <==> day <= t < day + DAY
  {
    var d := day / DAY;
    assert day == d * DAY && day + h * HOUR == (24 * d + h) * HOUR;
    Multiple(HOUR, 24 * d + h, t);
    Multiple(DAY, d, t);
  }

  /** Rounding down to a multiple of `w`. */
  lemma Multiple(w: int, k: int, t: int)
    requires w > 0
    ensures t - t % w == k * w <==> k * w <= t < k * w + w
  {
    var q := t / w;
    assert t == q * w + t % w;
    if k * w <= t < k * w + w {
      assert (q - k) * w > -w && (q - k) * w < w;
      Between(q - k, w);
    }
  }

  lemma Between(n: int, w: int)
    requires w > 0 && -w < n * w < w
    ensures n == 0
  {
    assert n >= 1 ==> n * w >= w;
    assert n <= -1 ==> n * w <= -w;
  }

  /** At any time, a day's rollup is the merge of that day's twenty-four hour rollups with the same
      dimensions: every counter, every count by name and both sketches. */
  lemma {:induction false} DayIsMergeOfHours(fs: seq<Fact>, day: int, d: Dims)
    requires AllProper(fs) && day % DAY == 0
    ensures MetricsAt(Projected(fs), KeyFor(Day, day, d)) == Hours(Projected(fs), day, d, 24)
  {
    if fs == [] {
      NoHours(day, d, 24);
    } else {
      hide Merge, Projected, MetricsAt, NoMetrics;
      DayIsMergeOfHours(Front(fs), day, d);
      ProjectEffect(fs, KeyFor(Day, day, d));
      HoursEffect(fs, day, d, 24);
      HourOfDay(day, Last(fs).at, 0);
    }
  }

  lemma MergeNothing()
    ensures Proper(NoMetrics()) && Merge(NoMetrics(), NoMetrics()) == NoMetrics()
  {
    SketchDataStored(Empty());
    MergeLaws(NoMetrics(), NoMetrics(), NoMetrics());
  }

  lemma {:induction false} NoHours(day: int, d: Dims, n: nat)
    ensures Hours([], day, d, n) == NoMetrics()
  {
    if n > 0 {
      hide Merge, NoMetrics, Proper, KeyFor, MergeData;
      NoHours(day, d, n - 1);
      MergeNothing();
    }
  }

  // ---------------------------------------------------------------- customer summaries

  datatype ModelUse = ModelUse(requests: int, tokens: int)

  /** What a usage summary adds up over the rollups it reads. */
  datatype Totals = Totals(counts: Counts, latency: Sketch, ttft: Sketch, models: map<string, ModelUse>)

  function UseAt(m: map<string, ModelUse>, k: string): ModelUse {
    if k in m then m[k] else ModelUse(0, 0)
  }

  function AddUses(a: map<string, ModelUse>, b: map<string, ModelUse>): map<string, ModelUse> {
    map k | k in a.Keys + b.Keys ::
      ModelUse(UseAt(a, k).requests + UseAt(b, k).requests, UseAt(a, k).tokens + UseAt(b, k).tokens)
  }

  predicate ValidTotals(t: Totals) {
    Valid(t.latency) && Valid(t.ttft)
  }

  function NoTotals(): (t: Totals)
    ensures ValidTotals(t)
  {
    Totals(NoCounts(), Empty(), Empty(), map[])
  }

  function AddTotals(a: Totals, b: Totals): (t: Totals)
    requires ValidTotals(a) && ValidTotals(b)
    ensures ValidTotals(t)
  {
    Totals(AddCounts(a.counts, b.counts), Merged(a.latency, b.latency), Merged(a.ttft, b.ttft),
           AddUses(a.models, b.models))
  }

  lemma AddUsesAssociates(a: map<string, ModelUse>, b: map<string, ModelUse>, c: map<string, ModelUse>)
    ensures AddUses(AddUses(a, b), c) == AddUses(a, AddUses(b, c))
  {
    var l, r := AddUses(AddUses(a, b), c), AddUses(a, AddUses(b, c));
    assert l.Keys == a.Keys + b.Keys + c.Keys == r.Keys;
    hide AddUses, UseAt;
    forall k | k in l.Keys ensures l[k] == r[k] {
      AddUsesAt(a, b, k);
      AddUsesAt(b, c, k);
      AddUsesAt(AddUses(a, b), c, k);
      AddUsesAt(a, AddUses(b, c), k);
    }
  }

  lemma AddUsesAt(a: map<string, ModelUse>, b: map<string, ModelUse>, k: string)
    ensures k in AddUses(a, b) ==> AddUses(a, b)[k] == UseAt(AddUses(a, b), k)
    ensures UseAt(AddUses(a, b), k)
         == ModelUse(UseAt(a, k).requests + UseAt(b, k).requests, UseAt(a, k).tokens + UseAt(b, k).tokens)
  {
  }

  lemma AddUsesLaws(a: map<string, ModelUse>, b: map<string, ModelUse>)
    ensures AddUses(a, b) == AddUses(b, a)
    ensures AddUses(map[], a) == a
  {
    assert AddUses(a, b).Keys == AddUses(b, a).Keys;
  }

  lemma AddTotalsLaws(a: Totals, b: Totals, c: Totals)
    requires ValidTotals(a) && ValidTotals(b) && ValidTotals(c)
    ensures AddTotals(a, b) == AddTotals(b, a)
    ensures AddTotals(AddTotals(a, b), c) == AddTotals(a, AddTotals(b, c))
    ensures AddTotals(NoTotals(), a) == a
  {
    hide AddUses, Merged, Empty;
    AddUsesLaws(a.models, b.models);
    AddUsesAssociates(a.models, b.models, c.models);
    MergeCommutes(a.latency, b.latency);
    MergeCommutes(a.ttft, b.ttft);
    MergeAssociates(a.latency, b.latency, c.latency);
    MergeAssociates(a.ttft, b.ttft, c.ttft);
    MergeEmpty(a.latency);
    MergeEmpty(a.ttft);
  }

  lemma MergeEmpty(s: Sketch)
    requires Valid(s)
    ensures Valid(Empty()) && Merged(Empty(), s) == s
  {
  }

  function TotalsOf(r: Rollup): (t: Totals)
    requires Proper(r.metrics)
    ensures ValidTotals(t)
  {
    Totals(r.metrics.counts, FromJson(r.metrics.latency), FromJson(r.metrics.ttft),
           if r.dims.model.GetOr("") == "" then map[]
           else map[r.dims.model.value := ModelUse(r.metrics.counts.requestsTotal, r.metrics.counts.totalTokens)])
  }

  lemma AddSingleUses(m: string, x: ModelUse, y: ModelUse)
    ensures AddUses(map[m := x], map[m := y]) == map[m := ModelUse(x.requests + y.requests, x.tokens + y.tokens)]
    ensures AddUses(map[], map[]) == map[]
  {
    assert AddUses(map[m := x], map[m := y]).Keys == {m};
  }

  lemma MergeDataMeans(a: Data, b: Data)
    requires Valid(FromJson(a)) && Valid(FromJson(b))
    ensures FromJson(MergeData(a, b)) == Merged(FromJson(a), FromJson(b))
  {
    StoreRoundTrip(Merged(FromJson(a), FromJson(b)));
  }

  /** Merging one rollup into another adds up what a summary sees of them. */
  lemma TotalsOfMerge(e: Rollup, r: Rollup)
    requires Proper(e.metrics) && Proper(r.metrics) && KeyOf(e) == KeyOf(r)
    ensures TotalsOf(e.(metrics := Merge(e.metrics, r.metrics))) == AddTotals(TotalsOf(e), TotalsOf(r))
  {
    MergeDataMeans(e.metrics.latency, r.metrics.latency);
    MergeDataMeans(e.metrics.ttft, r.metrics.ttft);
    AddSingleUses(e.dims.model.GetOr(""), ModelUse(e.metrics.counts.requestsTotal, e.metrics.counts.totalTokens),
                  ModelUse(r.metrics.counts.requestsTotal, r.metrics.counts.totalTokens));
    hide AddUses, MergeData, Merged, FromJson, ToJson, AddMaps;
  }

  datatype Query = Query(org: string, workspace: Option<string>, apiKey: Option<string>, startTime: int, endTime: int)

  /** A filter that is absent or empty lets everything through. */
  predicate Lets(filter: Option<string>, v: Option<string>) {
    filter.GetOr("") == "" || v == filter
  }

  predicate Overlaps(q: Query, start: int, end: int) {
    end >= q.startTime && start <= q.endTime
  }

  predicate Matches(q: Query, g: Granularity, r: Rollup) {
    && r.bucket == g
    && Lets(Some(q.org), Some(r.dims.org)) && Lets(q.workspace, Some(r.dims.workspace))
    && Lets(q.apiKey, r.dims.apiKey) && Overlaps(q, r.start, r.end)
  }

  function Selected(rs: Rollups, q: Query, g: Granularity): seq<Rollup> {
    if rs == [] then []
    else (if Matches(q, g, rs[0].1) then [rs[0].1] else []) + Selected(rs[1..], q, g)
  }

  predicate ByStart(a: Rollup, b: Rollup) {
    a.start <= b.start
  }

  /** `queryRollups` */
  function QueryRollups(rs: Rollups, q: Query, g: Granularity): seq<Rollup> {
    Sorting.Sort(ByStart, Selected(rs, q, g))
  }

  ghost predicate AllProperRollups(s: seq<Rollup>) {
    forall i :: 0 <= i < |s| ==> Proper(s[i].metrics)
  }

  function SumTotals(s: seq<Rollup>): (t: Totals)
    requires AllProperRollups(s)
    ensures ValidTotals(t)
  {
    if s == [] then NoTotals() else AddTotals(TotalsOf(s[0]), SumTotals(s[1..]))
  }

  lemma {:induction false} InsertTotals(r: Rollup, s: seq<Rollup>)
    requires AllProperRollups(s) && Proper(r.metrics)
    ensures AllProperRollups(Sorting.Insert(ByStart, r, s))
    ensures SumTotals(Sorting.Insert(ByStart, r, s)) == AddTotals(TotalsOf(r), SumTotals(s))
  {
    hide TotalsOf, AddTotals, Proper;
    var t := Sorting.Insert(ByStart, r, s);
    if s == [] || ByStart(r, s[0]) {
      assert t[1..] == s;
    } else {
      InsertTotals(r, s[1..]);
      assert t[1..] == Sorting.Insert(ByStart, r, s[1..]);
      var a, b, c := TotalsOf(s[0]), TotalsOf(r), SumTotals(s[1..]);
      AddTotalsLaws(a, b, c);
      AddTotalsLaws(b, a, c);
    }
  }

  /** A summary does not depend on the order in which the rollups are read. */
  lemma {:induction false} SortTotals(s: seq<Rollup>)
    requires AllProperRollups(s)
    ensures AllProperRollups(Sorting.Sort(ByStart, s))
    ensures SumTotals(Sorting.Sort(ByStart, s)) == SumTotals(s)
  {
    if s != [] {
      hide TotalsOf, AddTotals, Proper;
      SortTotals(s[1..]);
      InsertTotals(s[0], Sorting.Sort(ByStart, s[1..]));
    }
  }

  lemma {:induction false} SelectedProper(rs: Rollups, q: Query, g: Granularity)
    requires forall i :: 0 <= i < |rs| ==> Proper(rs[i].1.metrics)
    ensures AllProperRollups(Selected(rs, q, g))
  {
    if rs != [] {
      SelectedProper(rs[1..], q, g);
    }
  }

  /** What a summary adds up for one rollup, selected or not. */
  function Share(r: Rollup, q: Query, g: Granularity): (t: Totals)
    requires Proper(r.metrics)
    ensures ValidTotals(t)
  {
    if Matches(q, g, r) then TotalsOf(r) else NoTotals()
  }

  lemma SumCons(r: Rollup, s: seq<Rollup>)
    requires Proper(r.metrics) && AllProperRollups(s)
    ensures AllProperRollups([r] + s) && SumTotals([r] + s) == AddTotals(TotalsOf(r), SumTotals(s))
  {
    assert ([r] + s)[1..] == s;
  }

  lemma ShareCons(r: Rollup, rest: seq<Rollup>, q: Query, g: Granularity)
    requires Proper(r.metrics) && AllProperRollups(rest)
    ensures var s := (if Matches(q, g, r) then [r] else []) + rest;
            AllProperRollups(s) && SumTotals(s) == AddTotals(Share(r, q, g), SumTotals(rest))
  {
    hide TotalsOf, AddTotals, Proper, Matches, SumTotals, AllProperRollups, NoTotals;
    AddTotalsLaws(SumTotals(rest), NoTotals(), NoTotals());
    SumCons(r, rest);
    assert [] + rest == rest;
  }

  lemma SelectedStep(rs: Rollups, q: Query, g: Granularity)
    requires rs != [] && forall i :: 0 <= i < |rs| ==> Proper(rs[i].1.metrics)
    ensures AllProperRollups(Selected(rs, q, g)) && AllProperRollups(Selected(rs[1..], q, g))
    ensures SumTotals(Selected(rs, q, g)) ==
            AddTotals(Share(rs[0].1, q, g), SumTotals(Selected(rs[1..], q, g)))
  {
    hide TotalsOf, AddTotals, Proper, Matches, SumTotals, NoTotals, Share, AllProperRollups;
    SelectedProper(rs[1..], q, g);
    ShareCons(rs[0].1, Selected(rs[1..], q, g), q, g);
  }

  lemma SameKeyMatches(e: Rollup, r: Rollup, q: Query, g: Granularity)
    requires KeyOf(e) == KeyOf(r) && e.end == r.end
    ensures Matches(q, g, e) == Matches(q, g, r)
  {
  }

  lemma ShareOfMerge(e: Rollup, r: Rollup, q: Query, g: Granularity)
    requires Proper(e.metrics) && Proper(r.metrics) && KeyOf(e) == KeyOf(r) && e.end == r.end
    ensures Share(e.(metrics := Merge(e.metrics, r.metrics)), q, g) == AddTotals(Share(e, q, g), Share(r, q, g))
  {
    TotalsOfMerge(e, r);
    SameKeyMatches(e, r, q, g);
    SameKeyMatches(e.(metrics := Merge(e.metrics, r.metrics)), r, q, g);
    AddTotalsLaws(NoTotals(), NoTotals(), NoTotals());
    hide TotalsOf, AddTotals, Proper, Merge, Matches, NoTotals;
  }

  lemma SaveStep(rs: Rollups, r: Rollup)
    requires WellKept(rs) && Proper(r.metrics) && r.end == r.start + Width(r.bucket) - 1 && rs != []
    ensures Get(rs, KeyOf(r)).Some? ==> Proper(Get(rs, KeyOf(r)).value.metrics)
    ensures WellKept(rs[1..]) && Proper(rs[0].1.metrics)
    ensures rs[0].0 == KeyOf(r) ==>
              && KeyOf(rs[0].1) == KeyOf(r) && rs[0].1.end == r.end
              && SaveRollup(rs, r) == [(KeyOf(r), rs[0].1.(metrics := Merge(rs[0].1.metrics, r.metrics)))] + rs[1..]
    ensures rs[0].0 != KeyOf(r) ==>
              && Get(rs, KeyOf(r)) == Get(rs[1..], KeyOf(r))
              && SaveRollup(rs, r) == [rs[0]] + SaveRollup(rs[1..], r)
  {
    hide Merge, Proper;
    StoredMetrics(rs, KeyOf(r));
  }

  /** Saving a rollup adds its share to every summary, whether it is filed anew or merged. */
  lemma {:induction false} SaveTotals(rs: Rollups, r: Rollup, q: Query, g: Granularity)
    requires WellKept(rs) && Proper(r.metrics) && r.end == r.start + Width(r.bucket) - 1
    requires Get(rs, KeyOf(r)).Some? ==> Proper(Get(rs, KeyOf(r)).value.metrics)
    ensures AllProperRollups(Selected(rs, q, g)) && AllProperRollups(Selected(SaveRollup(rs, r), q, g))
    ensures SumTotals(Selected(SaveRollup(rs, r), q, g)) ==
            AddTotals(Share(r, q, g), SumTotals(Selected(rs, q, g)))
  {
    hide *;
    if rs == [] {
      NothingStored(r);
      SaveFirst(r, q, g);
    } else {
      var after := SaveRollup(rs, r);
      SaveEffect(rs, r, KeyOf(r));
      SaveStep(rs, r);
      SelectedOf(rs, q, g);
      SelectedOf(after, q, g);
      var a, b, c := Share(rs[0].1, q, g), Share(r, q, g), SumTotals(Selected(rs[1..], q, g));
      AddTotalsLaws(a, b, c);
      AddTotalsLaws(b, a, c);
      if rs[0].0 == KeyOf(r) {
        ShareOfMerge(rs[0].1, r, q, g);
        assert after[1..] == rs[1..];
      } else {
        SaveTotals(rs[1..], r, q, g);
        assert after[1..] == SaveRollup(rs[1..], r);
      }
    }
  }

  lemma SelectedOf(rs: Rollups, q: Query, g: Granularity)
    requires rs != [] && WellKept(rs)
    ensures Proper(rs[0].1.metrics)
    ensures AllProperRollups(Selected(rs, q, g)) && AllProperRollups(Selected(rs[1..], q, g))
    ensures SumTotals(Selected(rs, q, g)) ==
            AddTotals(Share(rs[0].1, q, g), SumTotals(Selected(rs[1..], q, g)))
  {
    hide Share, AddTotals, Proper, SumTotals, Selected;
    SelectedStep(rs, q, g);
  }

  lemma NothingStored(r: Rollup)
    ensures Get<RollupKey, Rollup>([], KeyOf(r)).None?
  {
  }

  lemma SaveFirst(r: Rollup, q: Query, g: Granularity)
    requires Proper(r.metrics) && Get<RollupKey, Rollup>([], KeyOf(r)).None?
    ensures AllProperRollups(Selected([], q, g)) && AllProperRollups(Selected(SaveRollup([], r), q, g))
    ensures SumTotals(Selected(SaveRollup([], r), q, g)) == AddTotals(Share(r, q, g), SumTotals(Selected([], q, g)))
  {
    hide KeyOf, Proper, Share, AddTotals, SumTotals;
    assert [(KeyOf(r), r)][1..] == [];
    assert SaveRollup([], r) == [(KeyOf(r), r)];
    SelectedStep([(KeyOf(r), r)], q, g);
  }

  // ---------------------------------------------------------------- hours against days

  /** What the summary adds up, and the percentiles it reports. */
  function Summarize(rs: Rollups, q: Query, g: Granularity): (t: Totals)
    requires WellKept(rs)
    ensures ValidTotals(t)
  {
    SelectedProper(rs, q, g);
    SortTotals(Selected(rs, q, g));
    SumTotals(QueryRollups(rs, q, g))
  }

  function FactShare(f: Fact, q: Query, g: Granularity): (t: Totals)
    requires Proper(f.metrics)
    ensures ValidTotals(t)
  {
    Share(RollupOf(f, g), q, g)
  }

  function FactTotals(fs: seq<Fact>, q: Query, g: Granularity): (t: Totals)
    requires AllProper(fs)
    ensures ValidTotals(t)
  {
    if fs == [] then NoTotals()
    else AddTotals(FactShare(Last(fs), q, g), FactTotals(Front(fs), q, g))
  }

  /** One projection adds the share of its hour rollup and the share of its day rollup. */
  lemma ProjectTotals(fs: seq<Fact>, q: Query, g: Granularity)
    requires fs != [] && AllProper(fs)
    requires AllProperRollups(Selected(Projected(Front(fs)), q, g))
    ensures AllProperRollups(Selected(Projected(fs), q, g)) && Proper(Last(fs).metrics)
    ensures SumTotals(Selected(Projected(fs), q, g)) ==
            AddTotals(Share(RollupOf(Last(fs), Day), q, g),
                      AddTotals(Share(RollupOf(Last(fs), Hour), q, g), SumTotals(Selected(Projected(Front(fs)), q, g))))
  {
    ProjectStep(fs);
    hide SumTotals, Selected, AddTotals, Proper, SaveRollup, Projected, Share, WellKept, AllProperRollups, AllProper,
      Get;
    var f, before := Last(fs), Projected(Front(fs));
    SaveEffect(before, RollupOf(f, Hour), KeyOf(RollupOf(f, Hour)));
    SaveTotals(before, RollupOf(f, Hour), q, g);
    SaveTotals(SaveRollup(before, RollupOf(f, Hour)), RollupOf(f, Day), q, g);
  }

  lemma OtherShare(f: Fact, q: Query, g: Granularity, h: Granularity)
    requires Proper(f.metrics) && g != h
    ensures Share(RollupOf(f, h), q, g) == NoTotals()
  {
  }

  /** Summaries see the projected facts themselves, each once, at either granularity. */
  lemma {:induction false} SummaryOfFacts(fs: seq<Fact>, q: Query, g: Granularity)
    requires AllProper(fs) && g != Minute
    ensures AllProperRollups(Selected(Projected(fs), q, g))
    ensures SumTotals(Selected(Projected(fs), q, g)) == FactTotals(fs, q, g)
  {
    if fs == [] {
      assert Selected([], q, g) == [];
    } else {
      var f, rest := Last(fs), FactTotals(Front(fs), q, g);
      assert FactTotals(fs, q, g) == AddTotals(FactShare(f, q, g), rest);
      hide SumTotals, Selected, AddTotals, Proper, Projected, Share, NoTotals, AllProperRollups, AllProper;
      SummaryOfFacts(Front(fs), q, g);
      ProjectTotals(fs, q, g);
      OtherShare(f, q, g, if g == Hour then Day else Hour);
      AddTotalsLaws(rest, NoTotals(), NoTotals());
      AddTotalsLaws(AddTotals(FactShare(f, q, g), rest), NoTotals(), NoTotals());
    }
  }

  lemma SummarizeFacts(fs: seq<Fact>, q: Query, g: Granularity)
    requires AllProper(fs) && g != Minute
    ensures Summarize(Projected(fs), q, g) == FactTotals(fs, q, g)
  {
    SummaryOfFacts(fs, q, g);
    SortTotals(Selected(Projected(fs), q, g));
  }

  /** The window starts in the first hour of a day and ends in the last hour of a day. */
  predicate WholeDays(q: Query) {
    q.startTime % DAY < HOUR && q.endTime % DAY >= DAY - HOUR
  }

  lemma SameOverlap(q: Query, t: int)
    requires WholeDays(q)
    ensures Overlaps(q, BucketStart(Hour, t), BucketEnd(Hour, t)) == Overlaps(q, BucketStart(Day, t), BucketEnd(Day, t))
  {
    var s, e := q.startTime / DAY, q.endTime / DAY;
    var d, h := t / DAY, t / HOUR;
    assert BucketStart(Hour, t) == h * HOUR && BucketStart(Day, t) == d * DAY;
    assert s * DAY <= q.startTime < s * DAY + HOUR;
    assert e * DAY + DAY - HOUR <= q.endTime < e * DAY + DAY;
    assert d * 24 <= h < d * 24 + 24;
    assert BucketEnd(Hour, t) >= q.startTime <==> h >= s * 24;
    assert BucketStart(Hour, t) <= q.endTime <==> h < (e + 1) * 24;
  }

  lemma {:induction false} FactTotalsAgree(fs: seq<Fact>, q: Query)
    requires AllProper(fs) && WholeDays(q)
    ensures FactTotals(fs, q, Hour) == FactTotals(fs, q, Day)
  {
    if fs != [] {
      hide AddTotals, TotalsOf, Overlaps, Proper, NoTotals, BucketStart;
      SameOverlap(q, Last(fs).at);
      FactTotalsAgree(Front(fs), q);
      assert TotalsOf(RollupOf(Last(fs), Hour)) == TotalsOf(RollupOf(Last(fs), Day)) by { SameTotals(Last(fs)); }
    }
  }

  lemma SameTotals(f: Fact)
    requires Proper(f.metrics)
    ensures TotalsOf(RollupOf(f, Hour)) == TotalsOf(RollupOf(f, Day))
  {
  }

  /** A policy denial that one granularity counts and the other does not, when the window is not whole
      days. */
  function Straddler(q: Query): Fact {
    var t := if q.startTime % DAY >= HOUR then BucketStart(Day, q.startTime)
             else BucketStart(Day, q.endTime) + DAY - HOUR;
    Fact(t, Dims(q.org, q.workspace.GetOr(""), q.apiKey, None, None, None),
         NoMetrics().(counts := NoCounts().(requestsTotal := 1, requestsRejected := 1),
                      policyDenials := map["no" := 1]))
  }

  lemma HourBoundary(day: int, h: int)
    requires 0 <= h < 24
    ensures var t := day * DAY + h * HOUR; BucketStart(Hour, t) == t && BucketStart(Day, t) == day * DAY
  {
    assert day * DAY + h * HOUR == (day * 24 + h) * HOUR;
  }

  lemma StraddlerOverlaps(q: Query)
    requires !WholeDays(q) && q.startTime <= q.endTime
    ensures var t := Straddler(q).at;
            && !Overlaps(q, BucketStart(Hour, t), BucketEnd(Hour, t))
            && Overlaps(q, BucketStart(Day, t), BucketEnd(Day, t))
  {
    var s, e := q.startTime / DAY, q.endTime / DAY;
    HourBoundary(s, 0);
    HourBoundary(e, 23);
    assert BucketStart(Day, q.startTime) == s * DAY && BucketStart(Day, q.endTime) == e * DAY;
  }

  lemma StraddlerMatches(q: Query, g: Granularity)
    ensures Matches(q, g, RollupOf(Straddler(q), g)) <==>
            Overlaps(q, BucketStart(g, Straddler(q).at), BucketEnd(g, Straddler(q).at))
  {
    hide BucketStart, BucketEnd, Overlaps;
  }

  lemma SingleTotals(f: Fact, q: Query, g: Granularity)
    requires Proper(f.metrics)
    ensures AllProper([f]) && FactTotals([f], q, g) == FactShare(f, q, g)
  {
    assert Front([f]) == [] && Last([f]) == f;
    AddTotalsLaws(NoTotals(), FactShare(f, q, g), NoTotals());
  }

  lemma StraddlerMetrics(q: Query)
    ensures Proper(Straddler(q).metrics) && Straddler(q).metrics.counts.requestsTotal == 1
  {
    MergeNothing();
  }

  lemma ShareCounts(r: Rollup, q: Query, g: Granularity)
    requires Proper(r.metrics)
    ensures Share(r, q, g).counts == if Matches(q, g, r) then r.metrics.counts else NoCounts()
  {
    hide Matches;
  }

  lemma StraddlerShare(q: Query, g: Granularity)
    ensures var f := Straddler(q);
            Proper(f.metrics) &&
            FactShare(f, q, g).counts.requestsTotal ==
            if Overlaps(q, BucketStart(g, f.at), BucketEnd(g, f.at)) then 1 else 0
  {
    hide BucketStart, BucketEnd, Overlaps, Matches, Proper, Share, Straddler;
    StraddlerMetrics(q);
    StraddlerMatches(q, g);
    ShareCounts(RollupOf(Straddler(q), g), q, g);
  }

  lemma StraddlerSplits(q: Query)
    requires !WholeDays(q) && q.startTime <= q.endTime
    ensures AllProper([Straddler(q)])
    ensures FactTotals([Straddler(q)], q, Hour) != FactTotals([Straddler(q)], q, Day)
  {
    StraddlerOverlaps(q);
    hide *;
    StraddlerShare(q, Hour);
    StraddlerShare(q, Day);
    SingleTotals(Straddler(q), q, Hour);
    SingleTotals(Straddler(q), q, Day);
  }

  /** Hour rollups and day rollups give the same summary - totals, percentiles and use by model - for
      everything that can ever be projected exactly when the window is made of whole days. */
  lemma SummariesAgree(q: Query)
    requires q.startTime <= q.endTime
    ensures WholeDays(q) <==>
            forall fs :: AllProper(fs) ==> Summarize(Projected(fs), q, Hour) == Summarize(Projected(fs), q, Day)
  {
    if WholeDays(q) {
      forall fs | AllProper(fs) ensures Summarize(Projected(fs), q, Hour) == Summarize(Projected(fs), q, Day) {
        SummarizeFacts(fs, q, Hour);
        SummarizeFacts(fs, q, Day);
        FactTotalsAgree(fs, q);
      }
    } else {
      StraddlerSplits(q);
      var fs := [Straddler(q)];
      SummarizeFacts(fs, q, Hour);
      SummarizeFacts(fs, q, Day);
      assert Summarize(Projected(fs), q, Hour) != Summarize(Projected(fs), q, Day);
    }
  }
}
