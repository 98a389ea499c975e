/** The usage ledger and its aggregates (packages/metering/src/repository.ts,
    packages/metering/src/projector.ts). */
module UsageLedger {
  import opened Collections
  import opened Sums

  datatype UsageType =
    | InputTokens | OutputTokens | TotalTokens | CachedInputTokens | ReasoningTokens
    | ImageInputUnits | ImageOutputUnits | AudioInputSeconds | AudioOutputSeconds | VideoSeconds
    | EmbeddingTokens | SearchCalls | ToolCalls

  datatype UsageEvent = UsageEvent(
    id: string, idempotencyKey: string, requestId: string, attemptId: Option<string>,
    organizationId: string, workspaceId: string, apiKeyId: Option<string>, canonicalModelId: string,
    providerId: Option<string>, usageType: UsageType, quantity: int, occurredAt: int)

  datatype Bucket = Hourly | Daily

  datatype Counters = Counters(input: int, output: int, total: int, cachedInput: int, reasoning: int)

  /** The parts of the text an aggregate is stored under. */
  datatype Key = Key(
    bucket: Bucket, bucketStart: int, organizationId: string, workspaceId: string,
    apiKey: string, model: string, provider: string)

  datatype Aggregate = Aggregate(
    bucket: Bucket, bucketStart: int, bucketEnd: int, organizationId: string, workspaceId: string,
    apiKeyId: Option<string>, canonicalModelId: string, providerId: Option<string>, counters: Counters)

  type Aggregates = map<Key, Aggregate>

  const HOUR := 3_600_000
  const DAY := 86_400_000

  function Length(b: Bucket): nat {
    if b == Hourly then HOUR else DAY
  }

  /** The last multiple of the bucket's length that is not after `t`. */
  function BucketStart(b: Bucket, t: int): int {
    t - t % Length(b)
  }

  function BucketEnd(b: Bucket, t: int): int {
    BucketStart(b, t) + Length(b) - 1
  }

  /** A missing API key or provider is filed under `all`. */
  function KeyOf(e: UsageEvent, b: Bucket): Key {
    Key(b, BucketStart(b, e.occurredAt), e.organizationId, e.workspaceId,
        e.apiKeyId.GetOr("all"), e.canonicalModelId, e.providerId.GetOr("all"))
  }

  function Nothing(): Counters {
    Counters(0, 0, 0, 0, 0)
  }

  /** Usage of other types is kept as events only. */
  function Counted(c: Counters, t: UsageType, quantity: int): Counters {
    match t
    case InputTokens => c.(input := c.input + quantity)
    case OutputTokens => c.(output := c.output + quantity)
    case TotalTokens => c.(total := c.total + quantity)
    case CachedInputTokens => c.(cachedInput := c.cachedInput + quantity)
    case ReasoningTokens => c.(reasoning := c.reasoning + quantity)
    case _ => c
  }

  function ProjectEvent(a: Aggregate, e: UsageEvent): Aggregate {
    a.(counters := Counted(a.counters, e.usageType, e.quantity))
  }

  /** An empty aggregate, labelled by the event that opens it. */
  function Opened(e: UsageEvent, b: Bucket): Aggregate {
    Aggregate(b, BucketStart(b, e.occurredAt), BucketEnd(b, e.occurredAt), e.organizationId, e.workspaceId,
              e.apiKeyId, e.canonicalModelId, e.providerId, Nothing())
  }

  function Into(m: Aggregates, e: UsageEvent, b: Bucket): Aggregates {
    var k := KeyOf(e, b);
    m[k := ProjectEvent(if k in m then m[k] else Opened(e, b), e)]
  }

  function IntoBoth(m: Aggregates, e: UsageEvent): Aggregates {
    Into(Into(m, e, Hourly), e, Daily)
  }

  function Rebuilt(events: seq<UsageEvent>): Aggregates {
    if events == [] then map[] else IntoBoth(Rebuilt(events[..|events| - 1]), events[|events| - 1])
  }

  method RebuildAggregates(events: seq<UsageEvent>) returns (m: Aggregates)
    ensures m == Rebuilt(events)
  {
    m := map[];
    for i := 0 to |events|
      invariant m == Rebuilt(events[..i])
    {
      assert events[..i + 1][..i] == events[..i];
      var e := events[i];
      var hourlyKey := KeyOf(e, Hourly);
      var hourly := if hourlyKey in m then m[hourlyKey] else Opened(e, Hourly);
      m := m[hourlyKey := ProjectEvent(hourly, e)];
      var dailyKey := KeyOf(e, Daily);
      var daily := if dailyKey in m then m[dailyKey] else Opened(e, Daily);
      m := m[dailyKey := ProjectEvent(daily, e)];
    }
    assert events[..|events|] == events;
  }

  // ---------------------------------------------------------------- the repository as a value

  datatype Ledger = Ledger(events: seq<UsageEvent>, idempotencyIndex: set<string>, aggregates: Aggregates)

  predicate HasId(events: seq<UsageEvent>, id: string) {
    exists i :: 0 <= i < |events| && events[i].id == id
  }

  predicate Duplicate(l: Ledger, e: UsageEvent) {
    e.idempotencyKey in l.idempotencyIndex || HasId(l.events, e.id)
  }

  function Appended(l: Ledger, e: UsageEvent): Ledger {
    if Duplicate(l, e) then l
    else Ledger(l.events + [e], l.idempotencyIndex + {e.idempotencyKey}, IntoBoth(l.aggregates, e))
  }

  function AppendedAll(l: Ledger, es: seq<UsageEvent>): Ledger {
    if es == [] then l else Appended(AppendedAll(l, es[..|es| - 1]), es[|es| - 1])
  }

  datatype LedgerOperation = Append(event: UsageEvent) | AppendBatch(events: seq<UsageEvent>) | Rebuild

  function Performed(l: Ledger, o: LedgerOperation): Ledger {
    match o
    case Append(e) => Appended(l, e)
    case AppendBatch(es) => AppendedAll(l, es)
    case Rebuild => l.(aggregates := Rebuilt(l.events))
  }

  function PerformedAll(operations: seq<LedgerOperation>): Ledger {
    if operations == [] then Ledger([], {}, map[])
    else Performed(PerformedAll(operations[..|operations| - 1]), operations[|operations| - 1])
  }

  /** No two events share an id or an idempotency key, and the aggregates are those of the events. */
  ghost predicate Consistent(l: Ledger) {
    && (forall i, j :: 0 <= i < j < |l.events| ==>
          l.events[i].id != l.events[j].id && l.events[i].idempotencyKey != l.events[j].idempotencyKey)
    && l.idempotencyIndex == Keys(l.events)
    && l.aggregates == Rebuilt(l.events)
  }

  function Keys(events: seq<UsageEvent>): set<string> {
    set e | e in events :: e.idempotencyKey
  }

  lemma KeysSnoc(events: seq<UsageEvent>, e: UsageEvent)
    ensures Keys(events + [e]) == Keys(events) + {e.idempotencyKey}
    ensures forall i :: 0 <= i < |events| ==> events[i].idempotencyKey in Keys(events)
  {
    assert forall x :: x in events + [e] <==> x in events || x == e;
  }

  lemma AppendedConsistent(l: Ledger, e: UsageEvent)
    requires Consistent(l)
    ensures Consistent(Appended(l, e))
  {
    hide IntoBoth, Keys;
    if !Duplicate(l, e) {
      KeysSnoc(l.events, e);
      assert (l.events + [e])[..|l.events|] == l.events;
    }
  }

  lemma {:induction false} AppendedAllConsistent(l: Ledger, es: seq<UsageEvent>)
    requires Consistent(l)
    ensures Consistent(AppendedAll(l, es))
  {
    if es != [] {
      AppendedAllConsistent(l, es[..|es| - 1]);
      AppendedConsistent(AppendedAll(l, es[..|es| - 1]), es[|es| - 1]);
    }
  }

  /** After any sequence of appends, batches and rebuilds, with whatever duplicates and replays, the
      stored aggregates are those of a rebuild from nothing over the accepted events. */
  lemma {:induction false} AggregatesAreRebuilt(operations: seq<LedgerOperation>)
    ensures Consistent(PerformedAll(operations))
    ensures Performed(PerformedAll(operations), Rebuild) == PerformedAll(operations)
  {
    if operations != [] {
      var before, o := PerformedAll(operations[..|operations| - 1]), operations[|operations| - 1];
      AggregatesAreRebuilt(operations[..|operations| - 1]);
      hide Consistent;
      match o
      case Append(e) => AppendedConsistent(before, e);
      case AppendBatch(es) => AppendedAllConsistent(before, es);
      case Rebuild =>
    }
    AggregatesOf(PerformedAll(operations));
  }

  lemma AggregatesOf(l: Ledger)
    requires Consistent(l)
    ensures l.aggregates == Rebuilt(l.events)
  {
  }

  lemma {:induction false} AppendedAllKnows(l: Ledger, es: seq<UsageEvent>, e: UsageEvent)
    ensures Duplicate(l, e) || e in es ==> Duplicate(AppendedAll(l, es), e)
  {
    hide IntoBoth;
    if es != [] {
      var front, last := es[..|es| - 1], es[|es| - 1];
      assert es == front + [last];
      var before := AppendedAll(l, front);
      AppendedAllKnows(l, front, e);
      var after := Appended(before, last);
      if HasId(before.events, e.id) {
        var i :| 0 <= i < |before.events| && before.events[i].id == e.id;
        assert after.events[i].id == e.id;
      }
    }
  }

  lemma {:induction false} KnownChangesNothing(l: Ledger, es: seq<UsageEvent>)
    requires forall e :: e in es ==> Duplicate(l, e)
    ensures AppendedAll(l, es) == l
  {
    if es != [] {
      assert es == es[..|es| - 1] + [es[|es| - 1]];
      KnownChangesNothing(l, es[..|es| - 1]);
    }
  }

  /** Sending a batch again changes nothing. */
  lemma ReplayIsIgnored(l: Ledger, es: seq<UsageEvent>)
    ensures AppendedAll(AppendedAll(l, es), es) == AppendedAll(l, es)
  {
    forall e | e in es ensures Duplicate(AppendedAll(l, es), e) {
      AppendedAllKnows(l, es, e);
    }
    KnownChangesNothing(AppendedAll(l, es), es);
  }

  // ---------------------------------------------------------------- what an aggregate counts

  function CountOf(c: Counters, t: UsageType): int {
    match t
    case InputTokens => c.input
    case OutputTokens => c.output
    case TotalTokens => c.total
    case CachedInputTokens => c.cachedInput
    case ReasoningTokens => c.reasoning
    case _ => 0
  }

  predicate IsToken(t: UsageType) {
    t.InputTokens? || t.OutputTokens? || t.TotalTokens? || t.CachedInputTokens? || t.ReasoningTokens?
  }

  function Share(k: Key, t: UsageType): UsageEvent -> int {
    (e: UsageEvent) => if KeyOf(e, k.bucket) == k && e.usageType == t && IsToken(t) then e.quantity else 0
  }

  function Stored(m: Aggregates, k: Key, t: UsageType): int {
    if k in m then CountOf(m[k].counters, t) else 0
  }

  lemma IntoCounts(m: Aggregates, e: UsageEvent, b: Bucket, k: Key, t: UsageType)
    ensures Stored(Into(m, e, b), k, t)
         == Stored(m, k, t) + if KeyOf(e, b) == k && e.usageType == t && IsToken(t) then e.quantity else 0
    ensures k in Into(m, e, b) <==> k in m || KeyOf(e, b) == k
  {
  }

  /** A stored count is the sum of the quantities of its events. */
  lemma {:induction false} CountsAreSums(events: seq<UsageEvent>, k: Key, t: UsageType)
    ensures Stored(Rebuilt(events), k, t) == SumBy(Share(k, t), events)
    ensures k in Rebuilt(events) <==> exists e :: e in events && KeyOf(e, k.bucket) == k
  {
    hide Into;
    if events != [] {
      var front, e := events[..|events| - 1], events[|events| - 1];
      assert events == front + [e];
      CountsAreSums(front, k, t);
      var m := Rebuilt(front);
      IntoCounts(m, e, Hourly, k, t);
      IntoCounts(Into(m, e, Hourly), e, Daily, k, t);
      assert KeyOf(e, Hourly).bucket == Hourly && KeyOf(e, Daily).bucket == Daily;
      hide KeyOf, Stored;
    }
  }

  /** Counts do not depend on the order of the events. */
  lemma CountsIgnoreOrder(s: seq<UsageEvent>, t: seq<UsageEvent>, k: Key, u: UsageType)
    requires multiset(s) == multiset(t)
    ensures Stored(Rebuilt(s), k, u) == Stored(Rebuilt(t), k, u)
  {
    CountsAreSums(s, k, u);
    CountsAreSums(t, k, u);
    SumRearranged(Share(k, u), s, t);
  }

  // ---------------------------------------------------------------- days and hours

  /** The hourly key of the `h`th hour of a day. */
  function HourKey(day: Key, h: nat): Key {
    day.(bucket := Hourly, bucketStart := day.bucketStart + h * HOUR)
  }

  function HoursTotal(m: Aggregates, day: Key, t: UsageType, n: nat): int {
    if n == 0 then 0 else HoursTotal(m, day, t, n - 1) + Stored(m, HourKey(day, n - 1), t)
  }

  function HoursShare(e: UsageEvent, day: Key, t: UsageType, n: nat): int {
    if n == 0 then 0 else HoursShare(e, day, t, n - 1) + Share(HourKey(day, n - 1), t)(e)
  }

  function HourOfDay(time: int): nat {
    (time % DAY) / HOUR
  }

  lemma HourInDay(time: int, start: int, h: nat)
    requires start % DAY == 0 && h < 24
    ensures BucketStart(Hourly, time) == start + h * HOUR
       <==> BucketStart(Daily, time) == start && HourOfDay(time) == h
  {
    var q, d, k := start / DAY, time / DAY, time / HOUR;
    assert start == q * DAY && start + h * HOUR == (24 * q + h) * HOUR;
    assert BucketStart(Hourly, time) == k * HOUR && BucketStart(Daily, time) == d * DAY;
    HoursOfDay(time);
  }

  lemma HoursOfDay(time: int)
    ensures HourOfDay(time) == time / HOUR - 24 * (time / DAY) && 0 <= HourOfDay(time) < 24
  {
    var d, r := time / DAY, time % DAY;
    assert time == d * DAY + r;
    assert time == (24 * d) * HOUR + r;
  }

  /** Of the hours of a day, an event of that day falls into exactly one. */
  lemma {:induction false} OneHour(e: UsageEvent, day: Key, t: UsageType, n: nat)
    requires day.bucket == Daily && day.bucketStart % DAY == 0 && n <= 24
    ensures HoursShare(e, day, t, n) == if HourOfDay(e.occurredAt) < n then Share(day, t)(e) else 0
  {
    if n > 0 {
      OneHour(e, day, t, n - 1);
      HourInDay(e.occurredAt, day.bucketStart, n - 1);
    }
  }

  lemma {:induction false} HoursAreShares(events: seq<UsageEvent>, day: Key, t: UsageType, n: nat)
    ensures HoursTotal(Rebuilt(events), day, t, n)
         == SumBy((e: UsageEvent) => HoursShare(e, day, t, n), events)
  {
    if n == 0 {
      SumEqual((e: UsageEvent) => HoursShare(e, day, t, 0), (e: UsageEvent) => 0, events);
      SumZero(events);
    } else {
      HoursAreShares(events, day, t, n - 1);
      CountsAreSums(events, HourKey(day, n - 1), t);
      SumAdds((e: UsageEvent) => HoursShare(e, day, t, n - 1), Share(HourKey(day, n - 1), t),
              (e: UsageEvent) => HoursShare(e, day, t, n), events);
    }
  }

  lemma {:induction false} SumZero(events: seq<UsageEvent>)
    ensures SumBy((e: UsageEvent) => 0, events) == 0
  {
    if events != [] {
      SumZero(events[..|events| - 1]);
    }
  }

  lemma {:induction false} SumAdds<T>(f: T -> int, g: T -> int, h: T -> int, s: seq<T>)
    requires forall x :: x in s ==> h(x) == f(x) + g(x)
    ensures SumBy(h, s) == SumBy(f, s) + SumBy(g, s)
  {
    if s != [] {
      assert s == s[..|s| - 1] + [s[|s| - 1]];
      SumAdds(f, g, h, s[..|s| - 1]);
    }
  }

  lemma KeyStartsAtMidnight(e: UsageEvent)
    ensures KeyOf(e, Daily).bucketStart % DAY == 0
  {
    var q := e.occurredAt / DAY;
    assert KeyOf(e, Daily).bucketStart == q * DAY;
  }

  /** Every daily aggregate that is stored starts at midnight. */
  lemma DaysStartAtMidnight(events: seq<UsageEvent>, day: Key)
    requires day in Rebuilt(events) && day.bucket == Daily
    ensures day.bucketStart % DAY == 0
  {
    hide KeyOf, Rebuilt;
    CountsAreSums(events, day, InputTokens);
    var e :| e in events && KeyOf(e, Daily) == day;
    KeyStartsAtMidnight(e);
  }

  /** Every count of a daily aggregate is the sum of that count over the day's 24 hourly ones. */
  lemma DayIsSumOfHours(events: seq<UsageEvent>, day: Key, t: UsageType)
    requires day.bucket == Daily && (day in Rebuilt(events) || day.bucketStart % DAY == 0)
    ensures Stored(Rebuilt(events), day, t) == HoursTotal(Rebuilt(events), day, t, 24)
  {
    if day in Rebuilt(events) {
      DaysStartAtMidnight(events, day);
    }
    HoursAreShares(events, day, t, 24);
    CountsAreSums(events, day, t);
    forall e | e in events ensures HoursShare(e, day, t, 24) == Share(day, t)(e) {
      OneHour(e, day, t, 24);
    }
    SumEqual((e: UsageEvent) => HoursShare(e, day, t, 24), Share(day, t), events);
  }

  // ---------------------------------------------------------------- labels

  /** What an aggregate says of itself besides its counts, for a given key. */
  function Label(e: UsageEvent): (Option<string>, Option<string>) {
    (e.apiKeyId, e.providerId)
  }

  /** Two events are filed under the same key although one lacks what the other calls `all`. */
  predicate Clash(a: UsageEvent, b: UsageEvent, k: Key) {
    KeyOf(a, k.bucket) == k && KeyOf(b, k.bucket) == k && Label(a) != Label(b)
  }

  predicate Clashing(events: seq<UsageEvent>, k: Key) {
    exists i, j :: 0 <= i < |events| && 0 <= j < |events| && Clash(events[i], events[j], k)
  }

  function First(events: seq<UsageEvent>, k: Key): Option<UsageEvent> {
    if events == [] then None
    else
      var before := First(events[..|events| - 1], k);
      var e := events[|events| - 1];
      if before.None? && KeyOf(e, k.bucket) == k then Some(e) else before
  }

  lemma IntoLabels(m: Aggregates, e: UsageEvent, b: Bucket, k: Key)
    requires k in Into(m, e, b)
    ensures KeyOf(e, b) != k ==> k in m && Into(m, e, b)[k] == m[k]
    ensures KeyOf(e, b) == k ==>
              Into(m, e, b)[k].(counters := Nothing())
              == if k in m then m[k].(counters := Nothing()) else Opened(e, b)
  {
  }

  lemma FirstStep(front: seq<UsageEvent>, e: UsageEvent, k: Key)
    ensures First(front + [e], k)
         == if First(front, k).None? && KeyOf(e, k.bucket) == k then Some(e) else First(front, k)
  {
    assert (front + [e])[..|front|] == front;
  }

  lemma {:induction false} FirstMeans(events: seq<UsageEvent>, k: Key)
    ensures First(events, k).Some? ==> First(events, k).value in events && KeyOf(First(events, k).value, k.bucket) == k
    ensures (exists e :: e in events && KeyOf(e, k.bucket) == k) ==> First(events, k).Some?
  {
    hide KeyOf;
    if events != [] {
      var front, e := events[..|events| - 1], events[|events| - 1];
      assert events == front + [e];
      FirstMeans(front, k);
    }
  }

  /** What one event does to the aggregate of a key, its counts apart. */
  lemma LabelStep(m: Aggregates, e: UsageEvent, k: Key)
    ensures k in IntoBoth(m, e) <==> k in m || KeyOf(e, k.bucket) == k
    ensures k in IntoBoth(m, e) ==>
              IntoBoth(m, e)[k].(counters := Nothing())
              == if k in m then m[k].(counters := Nothing()) else Opened(e, k.bucket)
  {
    hide Into, Opened, KeyOf;
    assert IntoBoth(m, e) == Into(Into(m, e, Hourly), e, Daily);
    assert k.bucket == Hourly || k.bucket == Daily;
    IntoCounts(m, e, Hourly, k, InputTokens);
    IntoCounts(Into(m, e, Hourly), e, Daily, k, InputTokens);
    BucketsOfKeys(e);
    if k in Into(m, e, Hourly) {
      IntoLabels(m, e, Hourly, k);
    }
    if k in IntoBoth(m, e) {
      IntoLabels(Into(m, e, Hourly), e, Daily, k);
    }
  }

  lemma RebuiltStep(front: seq<UsageEvent>, e: UsageEvent)
    ensures Rebuilt(front + [e]) == IntoBoth(Rebuilt(front), e)
  {
    assert (front + [e])[..|front|] == front;
  }

  lemma {:induction false} FirstLabels(events: seq<UsageEvent>, k: Key)
    ensures k in Rebuilt(events) <==> First(events, k).Some?
    ensures k in Rebuilt(events) ==>
              Rebuilt(events)[k].(counters := Nothing()) == Opened(First(events, k).value, k.bucket)
  {
    if events != [] {
      hide IntoBoth, Opened, KeyOf, Rebuilt, First;
      var front, e := events[..|events| - 1], events[|events| - 1];
      assert events == front + [e];
      FirstLabels(front, k);
      RebuiltStep(front, e);
      FirstStep(front, e, k);
      LabelStep(Rebuilt(front), e, k);
    }
  }

  /** An aggregate carries the labels of the first event of its key. */
  lemma LabelsAreFirst(events: seq<UsageEvent>, k: Key)
    ensures k in Rebuilt(events) <==> First(events, k).Some?
    ensures k in Rebuilt(events) ==>
              Rebuilt(events)[k].(counters := Nothing()) == Opened(First(events, k).value, k.bucket)
    ensures First(events, k).Some? ==> First(events, k).value in events && KeyOf(First(events, k).value, k.bucket) == k
    ensures (exists e :: e in events && KeyOf(e, k.bucket) == k) ==> First(events, k).Some?
  {
    hide Rebuilt, First, Opened, KeyOf;
    FirstLabels(events, k);
    FirstMeans(events, k);
  }

  lemma BucketsOfKeys(e: UsageEvent)
    ensures KeyOf(e, Hourly).bucket == Hourly && KeyOf(e, Daily).bucket == Daily
  {
  }

  lemma SameAggregate(a: Aggregate, b: Aggregate)
    requires a.(counters := Nothing()) == b.(counters := Nothing())
    requires forall t :: CountOf(a.counters, t) == CountOf(b.counters, t)
    ensures a == b
  {
    assert CountOf(a.counters, InputTokens) == a.counters.input;
    assert CountOf(a.counters, OutputTokens) == a.counters.output;
    assert CountOf(a.counters, TotalTokens) == a.counters.total;
    assert CountOf(a.counters, CachedInputTokens) == a.counters.cachedInput;
    assert CountOf(a.counters, ReasoningTokens) == a.counters.reasoning;
  }

  ghost predicate SameInAnyOrder(s: seq<UsageEvent>, k: Key) {
    forall t: seq<UsageEvent> :: multiset(t) == multiset(s) ==>
      (k in Rebuilt(t) <==> k in Rebuilt(s)) && (k in Rebuilt(s) ==> Rebuilt(t)[k] == Rebuilt(s)[k])
  }

  lemma UnclashingOrder(s: seq<UsageEvent>, t: seq<UsageEvent>, k: Key)
    requires !Clashing(s, k) && multiset(t) == multiset(s)
    ensures k in Rebuilt(t) <==> k in Rebuilt(s)
    ensures k in Rebuilt(s) ==> Rebuilt(t)[k] == Rebuilt(s)[k]
  {
    hide KeyOf, Rebuilt;
    CountsAreSums(s, k, InputTokens);
    CountsAreSums(t, k, InputTokens);
    forall e ensures e in s <==> e in t {
      assert e in s <==> e in multiset(s);
      assert e in t <==> e in multiset(t);
    }
    if k in Rebuilt(s) {
      LabelsAreFirst(s, k);
      LabelsAreFirst(t, k);
      var a, b := First(s, k).value, First(t, k).value;
      var i :| 0 <= i < |s| && s[i] == a;
      var j :| 0 <= j < |s| && s[j] == b;
      assert !Clash(s[i], s[j], k);
      SameKeySameOpening(a, b, k);
      forall u ensures CountOf(Rebuilt(s)[k].counters, u) == CountOf(Rebuilt(t)[k].counters, u) {
        CountsIgnoreOrder(s, t, k, u);
      }
      SameAggregate(Rebuilt(s)[k], Rebuilt(t)[k]);
    }
  }

  lemma SameKeySameOpening(a: UsageEvent, b: UsageEvent, k: Key)
    requires KeyOf(a, k.bucket) == k && KeyOf(b, k.bucket) == k
    ensures Opened(a, k.bucket) == Opened(b, k.bucket) <==> Label(a) == Label(b)
  {
  }

  lemma {:induction false} FirstOfMoved(e: UsageEvent, rest: seq<UsageEvent>, k: Key)
    requires KeyOf(e, k.bucket) == k
    ensures First([e] + rest, k) == Some(e)
  {
    hide KeyOf;
    if rest == [] {
      assert [e] + rest == [e] && [e][..0] == [];
    } else {
      FirstOfMoved(e, rest[..|rest| - 1], k);
      assert ([e] + rest)[..|rest|] == [e] + rest[..|rest| - 1];
    }
  }

  lemma ClashingOrder(s: seq<UsageEvent>, k: Key)
    requires Clashing(s, k)
    ensures !SameInAnyOrder(s, k)
  {
    hide KeyOf, Rebuilt, First, Opened;
    var i, j :| 0 <= i < |s| && 0 <= j < |s| && Clash(s[i], s[j], k);
    LabelsAreFirst(s, k);
    assert s[i] in s;
    var f := First(s, k).value;
    var m := if Label(s[i]) != Label(f) then i else j;
    var t := MovedFirst(s, m);
    FirstOfMoved(s[m], s[..m] + s[m + 1..], k);
    LabelsAreFirst(t, k);
    SameKeySameOpening(s[m], f, k);
    assert Rebuilt(t)[k] != Rebuilt(s)[k];
  }

  function MovedFirst(s: seq<UsageEvent>, m: nat): (t: seq<UsageEvent>)
    requires m < |s|
    ensures multiset(t) == multiset(s)
  {
    TakeOut(s, m);
    [s[m]] + (s[..m] + s[m + 1..])
  }

  /** The aggregate of a key, labels included, is the same for every order of the events exactly
      when no two events with different labels are filed under the key. */
  lemma LabelsIgnoreOrderIff(s: seq<UsageEvent>, k: Key)
    ensures SameInAnyOrder(s, k) <==> !Clashing(s, k)
  {
    if Clashing(s, k) {
      ClashingOrder(s, k);
    } else {
      forall t: seq<UsageEvent> | multiset(t) == multiset(s)
        ensures k in Rebuilt(t) <==> k in Rebuilt(s)
        ensures k in Rebuilt(s) ==> Rebuilt(t)[k] == Rebuilt(s)[k]
      {
        UnclashingOrder(s, t, k);
      }
    }
  }

  // ---------------------------------------------------------------- the repository object

  class InMemoryUsageLedgerRepository {
    var events: seq<UsageEvent>
    var idempotencyIndex: set<string>
    var aggregates: Aggregates

    function Contents(): Ledger
      reads this
    {
      Ledger(events, idempotencyIndex, aggregates)
    }

    constructor ()
      ensures Contents() == PerformedAll([])
    {
      events, idempotencyIndex, aggregates := [], {}, map[];
    }

    /** The new event is aggregated on its own, and each result is merged into what is stored. */
    method AppendUsageEvent(event: UsageEvent) returns (appended: bool)
      modifies this
      ensures appended <==> !Duplicate(old(Contents()), event)
      ensures Contents() == Appended(old(Contents()), event)
    {
      if event.idempotencyKey in idempotencyIndex || exists i :: 0 <= i < |events| && events[i].id == event.id {
        return false;
      }
      events := events + [event];
      idempotencyIndex := idempotencyIndex + {event.idempotencyKey};
      var own := RebuildAggregates([event]);
      OwnAggregates(event);
      ghost var start := aggregates;
      var keys := [KeyOf(event, Hourly), KeyOf(event, Daily)];
      for i := 0 to 2
        invariant events == old(events) + [event]
        invariant idempotencyIndex == old(idempotencyIndex) + {event.idempotencyKey}
        invariant aggregates == if i == 0 then start
                                else if i == 1 then Into(start, event, Hourly)
                                else IntoBoth(start, event)
      {
        var key := keys[i];
        if key in aggregates {
          aggregates := aggregates[key := ProjectEvent(aggregates[key], event)];
        } else {
          aggregates := aggregates[key := own[key]];
        }
      }
      return true;
    }

    method AppendUsageEventsBatch(batch: seq<UsageEvent>) returns (appended: nat, duplicates: nat)
      modifies this
      ensures Contents() == AppendedAll(old(Contents()), batch)
      ensures appended + duplicates == |batch|
      ensures |events| == |old(events)| + appended
    {
      appended, duplicates := 0, 0;
      for i := 0 to |batch|
        invariant Contents() == AppendedAll(old(Contents()), batch[..i])
        invariant appended + duplicates == i
        invariant |events| == |old(events)| + appended
      {
        assert batch[..i + 1][..i] == batch[..i];
        var isNew := AppendUsageEvent(batch[i]);
        if isNew {
          appended := appended + 1;
        } else {
          duplicates := duplicates + 1;
        }
      }
      assert batch[..|batch|] == batch;
    }

    method Rebuild() returns (processedEvents: nat, aggregateCount: nat)
      modifies this`aggregates
      ensures Contents() == Performed(old(Contents()), LedgerOperation.Rebuild)
      ensures processedEvents == |events| && aggregateCount == |aggregates|
    {
      aggregates := RebuildAggregates(events);
      processedEvents, aggregateCount := |events|, |aggregates|;
    }
  }

  lemma OwnAggregates(e: UsageEvent)
    ensures Rebuilt([e]) == map[KeyOf(e, Hourly) := ProjectEvent(Opened(e, Hourly), e),
                                KeyOf(e, Daily) := ProjectEvent(Opened(e, Daily), e)]
  {
    assert [e][..0] == [];
    BucketsOfKeys(e);
  }
}
