/** What the provider attempts of a request cost (packages/pricing/src/provider-cost-calculator.ts). */
module ProviderCost {
  import opened Collections
  import opened Decimals
  import opened Sums
  import opened PriceResolver

  datatype AttemptStatus = Started | Completed | Failed | Cancelled

  datatype UsageSource = ProviderReported | Estimated | Unavailable | OtherSource

  datatype Attempt = Attempt(
    id: string, providerId: string, providerRouteId: Option<string>, providerModelId: string,
    region: Option<string>, credentialId: Option<string>, status: AttemptStatus, usageSource: UsageSource,
    priceScheduleId: Option<string>, priceVersion: Option<int>,
    input: int, output: int, cached: Option<int>, reasoning: Option<int>, search: Option<int>,
    image: Option<int>, audio: Option<int>)

  datatype Request = Request(
    canonicalModelId: string, attempts: seq<Attempt>, cacheHit: bool, targetDate: int, currency: string)

  /** Ordered from best to worst. */
  datatype CostStatus = Exact | EstimatedCost | Incomplete | Unpriced

  datatype Line = Line(
    attemptId: string, usageType: UsageType, quantity: int, scheduleId: string, version: int, amount: Decimal)

  datatype Cost = Cost(
    lines: seq<Line>, versions: set<(string, int)>, status: CostStatus,
    retry: Decimal, fallback: Decimal, successful: Decimal)

  datatype CostResult = CostResult(subtotal: Decimal, cost: Cost)

  datatype PricingError = AmbiguousSchedules(score: nat) | ZeroPerUnits

  const ZERO := Decimal(0)

  function Nothing(): Cost {
    Cost([], {}, Exact, ZERO, ZERO, ZERO)
  }

  // ---------------------------------------------------------------- one attempt

  function ParamsFor(q: Request, a: Attempt): Params {
    Params(a.providerId, a.providerRouteId, Some(q.canonicalModelId), Some(a.providerModelId), a.region,
           a.credentialId, Some(q.currency), q.targetDate, a.priceScheduleId, a.priceVersion)
  }

  /** Of two rates for the same usage the later one counts. */
  function RateFor(rates: seq<Rate>, t: UsageType): Option<Rate> {
    if rates == [] then None
    else if rates[|rates| - 1].usageType == t then Some(rates[|rates| - 1])
    else RateFor(rates[..|rates| - 1], t)
  }

  /** Cached input falls back to the input rate, and reasoning to the output rate. */
  function RateApplied(rates: seq<Rate>, t: UsageType): Option<Rate> {
    var own := RateFor(rates, t);
    if own.Some? then own
    else if t == CachedInputTokens then RateFor(rates, InputTokens)
    else if t == ReasoningTokens then RateFor(rates, OutputTokens)
    else None
  }

  function Quantity(a: Attempt, t: UsageType): int {
    match t
    case InputTokens => a.input
    case OutputTokens => a.output
    case CachedInputTokens => a.cached.GetOr(0)
    case ReasoningTokens => a.reasoning.GetOr(0)
    case SearchCalls => a.search.GetOr(0)
    case OtherUsage(_) => 0
  }

  const BILLED: seq<UsageType> := [InputTokens, OutputTokens, CachedInputTokens, ReasoningTokens, SearchCalls]

  /** The line for one type of usage: none if nothing was used or nothing prices it. */
  function LineFor(a: Attempt, p: Priced, t: UsageType): Result<seq<Line>, PricingError> {
    var quantity := Quantity(a, t);
    var rate := RateApplied(p.rates, t);
    if quantity <= 0 || rate.None? then Success([])
    else
      var amount := FromUnits(FromInt(quantity), rate.value.price, FromInt(rate.value.perUnits));
      if amount.Failure? then Failure(ZeroPerUnits)
      else Success([Line(a.id, t, quantity, p.schedule.id, p.schedule.version, amount.value)])
  }

  function LinesFor(a: Attempt, p: Priced, types: seq<UsageType>): Result<seq<Line>, PricingError> {
    if types == [] then Success([])
    else
      var before := LinesFor(a, p, types[..|types| - 1]);
      if before.Failure? then before
      else
        var line := LineFor(a, p, types[|types| - 1]);
        if line.Failure? then line else Success(before.value + line.value)
  }

  function AmountOf(l: Line): int {
    l.amount.raw
  }

  function Total(lines: seq<Line>): Decimal {
    Decimal(SumBy(AmountOf, lines))
  }

  function Worse(a: CostStatus, b: CostStatus): CostStatus {
    if Rank(a) >= Rank(b) then a else b
  }

  function Rank(s: CostStatus): nat {
    match s
    case Exact => 0
    case EstimatedCost => 1
    case Incomplete => 2
    case Unpriced => 3
  }

  predicate Unrated(a: Attempt, p: Priced) {
    (a.input > 0 && RateFor(p.rates, InputTokens).None?) || (a.output > 0 && RateFor(p.rates, OutputTokens).None?)
  }

  /** How well one attempt is priced. */
  function StatusOf(a: Attempt, resolved: Option<Priced>): CostStatus {
    match resolved
    case None => if a.input > 0 || a.output > 0 then Unpriced else Exact
    case Some(p) =>
      if Unrated(a, p) then Unpriced
      else if a.usageSource == Unavailable then Incomplete
      else if a.usageSource == Estimated then EstimatedCost
      else Exact
  }

  predicate IsFallback(attempts: seq<Attempt>, i: nat)
    requires i < |attempts|
  {
    i > 0 && attempts[i - 1].providerId != attempts[i].providerId
  }

  /** An attempt's lines, its share of the breakdown and its status, added to what there is. */
  function Charged(c: Cost, a: Attempt, fallback: bool, resolved: Option<Priced>, lines: seq<Line>): Cost {
    var cost := Total(lines);
    var status := Worse(c.status, StatusOf(a, resolved));
    match resolved
    case None => c.(status := status)
    case Some(p) =>
      Cost(c.lines + lines, c.versions + {(p.schedule.id, p.schedule.version)}, status,
           if a.status != Completed && !fallback then Add(c.retry, cost) else c.retry,
           if fallback then Add(c.fallback, cost) else c.fallback,
           if a.status == Completed then Add(c.successful, cost) else c.successful)
  }

  // ---------------------------------------------------------------- the whole request

  function Resolved(items: seq<Priced>, q: Request, a: Attempt): Result<Option<Priced>, PricingError> {
    var r := Resolve(items, ParamsFor(q, a));
    if r.Failure? then Failure(AmbiguousSchedules(r.error.score)) else Success(r.value)
  }

  function AttemptLines(a: Attempt, resolved: Option<Priced>): Result<seq<Line>, PricingError> {
    if resolved.None? then Success([]) else LinesFor(a, resolved.value, BILLED)
  }

  /** The cost of the first `n` attempts. */
  function CostOf(items: seq<Priced>, q: Request, n: nat): Result<Cost, PricingError>
    requires n <= |q.attempts|
  {
    if n == 0 then Success(Nothing())
    else
      var before := CostOf(items, q, n - 1);
      if before.Failure? then before
      else
        var a := q.attempts[n - 1];
        var resolved := Resolved(items, q, a);
        if resolved.Failure? then Failure(resolved.error)
        else
          var lines := AttemptLines(a, resolved.value);
          if lines.Failure? then Failure(lines.error)
          else Success(Charged(before.value, a, IsFallback(q.attempts, n - 1), resolved.value, lines.value))
  }

  function RequestCost(items: seq<Priced>, q: Request): Result<CostResult, PricingError> {
    if q.cacheHit || q.attempts == [] then Success(CostResult(ZERO, Nothing()))
    else
      var c := CostOf(items, q, |q.attempts|);
      if c.Failure? then Failure(c.error) else Success(CostResult(Total(c.value.lines), c.value))
  }

  lemma TotalSnoc(lines: seq<Line>, line: Line)
    ensures Total(lines + [line]) == Add(Total(lines), line.amount)
  {
    SumConcat(AmountOf, lines, [line]);
    SumOne(AmountOf, line);
  }

  /** Prices one attempt by its schedule, line by line. */
  method PriceAttempt(a: Attempt, p: Priced, status: CostStatus)
    returns (r: Result<(seq<Line>, Decimal, CostStatus), PricingError>)
    ensures r.Failure? <==> LinesFor(a, p, BILLED).Failure?
    ensures r.Failure? ==> r.error == LinesFor(a, p, BILLED).error
    ensures r.Success? ==>
              && r.value.0 == LinesFor(a, p, BILLED).value
              && r.value.1 == Total(r.value.0)
              && r.value.2 == Worse(status, StatusOf(a, Some(p)))
  {
    var overall := status;
    if a.usageSource == Estimated && overall == Exact {
      overall := EstimatedCost;
    } else if a.usageSource == Unavailable && overall != Unpriced {
      overall := Incomplete;
    }
    var attemptCost := ZERO;
    var lines: seq<Line> := [];
    hide LineFor, LinesFor, UnratedIn, Unrated, Total, FromUnits, RateFor;
    ghost var start := overall;
    NoTypes(a, p);
    for i := 0 to |BILLED|
      invariant LinesFor(a, p, BILLED[..i]) == Success(lines)
      invariant attemptCost == Total(lines)
      invariant overall == if UnratedIn(a, p, BILLED[..i]) then Unpriced else start
    {
      var t := BILLED[i];
      TypeStep(a, p, i);
      assert lines + [] == lines;
      var quantity := Quantity(a, t);
      if quantity > 0 {
        var rate := RateApplied(p.rates, t);
        if rate.Some? {
          var amount := FromUnits(FromInt(quantity), rate.value.price, FromInt(rate.value.perUnits));
          if amount.Failure? {
            FailurePersists(a, p, i + 1);
            return Failure(ZeroPerUnits);
          }
          var line := Line(a.id, t, quantity, p.schedule.id, p.schedule.version, amount.value);
          TotalSnoc(lines, line);
          attemptCost := Add(attemptCost, amount.value);
          lines := lines + [line];
        } else if t == InputTokens || t == OutputTokens {
          overall := Unpriced;
        }
      }
    }
    assert BILLED[..|BILLED|] == BILLED;
    UnratedMeans(a, p);
    return Success((lines, attemptCost, overall));
  }

  lemma NoTypes(a: Attempt, p: Priced)
    ensures LinesFor(a, p, []) == Success([]) && !UnratedIn(a, p, []) && Total([]) == ZERO
  {
  }

  lemma TypeStep(a: Attempt, p: Priced, i: nat)
    requires i < |BILLED|
    ensures UnratedIn(a, p, BILLED[..i + 1]) <==> UnratedIn(a, p, BILLED[..i]) || UnratedType(a, p, BILLED[i])
    ensures LinesFor(a, p, BILLED[..i]).Success? ==>
              LinesFor(a, p, BILLED[..i + 1])
              == var line := LineFor(a, p, BILLED[i]);
                 if line.Failure? then line else Success(LinesFor(a, p, BILLED[..i]).value + line.value)
    ensures var t := BILLED[i];
            var quantity, rate := Quantity(a, t), RateApplied(p.rates, t);
            LineFor(a, p, t)
            == if quantity <= 0 || rate.None? then Success([])
               else
                 var amount := FromUnits(FromInt(quantity), rate.value.price, FromInt(rate.value.perUnits));
                 if amount.Failure? then Failure(ZeroPerUnits)
                 else Success([Line(a.id, t, quantity, p.schedule.id, p.schedule.version, amount.value)])
  {
    assert BILLED[..i + 1][..i] == BILLED[..i];
  }

  /** Whether input or output without a rate is among the types. */
  predicate UnratedIn(a: Attempt, p: Priced, types: seq<UsageType>) {
    types != [] &&
    (UnratedIn(a, p, types[..|types| - 1]) || UnratedType(a, p, types[|types| - 1]))
  }

  predicate UnratedType(a: Attempt, p: Priced, t: UsageType) {
    (t == InputTokens || t == OutputTokens) && Quantity(a, t) > 0 && RateApplied(p.rates, t).None?
  }

  lemma UnratedMeans(a: Attempt, p: Priced)
    ensures UnratedIn(a, p, BILLED) <==> Unrated(a, p)
  {
    hide RateFor;
    assert BILLED[..4][..3] == BILLED[..3] && BILLED[..3][..2] == BILLED[..2] && BILLED[..2][..1] == BILLED[..1];
    assert BILLED[..1][..0] == [];
    assert UnratedIn(a, p, BILLED[..1]) <==> UnratedType(a, p, InputTokens);
    assert UnratedIn(a, p, BILLED[..2]) <==> UnratedIn(a, p, BILLED[..1]) || UnratedType(a, p, OutputTokens);
    assert UnratedIn(a, p, BILLED[..3]) <==> UnratedIn(a, p, BILLED[..2]);
    assert UnratedIn(a, p, BILLED[..4]) <==> UnratedIn(a, p, BILLED[..3]);
    assert UnratedIn(a, p, BILLED) <==> UnratedIn(a, p, BILLED[..4]);
  }

  lemma {:induction false} FailurePersists(a: Attempt, p: Priced, i: nat)
    requires i <= |BILLED| && LinesFor(a, p, BILLED[..i]).Failure?
    ensures LinesFor(a, p, BILLED) == LinesFor(a, p, BILLED[..i])
    decreases |BILLED| - i
  {
    if i == |BILLED| {
      assert BILLED[..i] == BILLED;
    } else {
      assert BILLED[..i + 1][..i] == BILLED[..i];
      FailurePersists(a, p, i + 1);
    }
  }

  lemma {:induction false} CostFailurePersists(items: seq<Priced>, q: Request, i: nat)
    requires i <= |q.attempts| && CostOf(items, q, i).Failure?
    ensures CostOf(items, q, |q.attempts|) == CostOf(items, q, i)
    decreases |q.attempts| - i
  {
    hide Resolved, AttemptLines, Charged, IsFallback;
    if i < |q.attempts| {
      CostFailurePersists(items, q, i + 1);
    }
  }

  method CalculateRequestCost(items: seq<Priced>, q: Request) returns (r: Result<CostResult, PricingError>)
    ensures r == RequestCost(items, q)
  {
    if q.cacheHit || |q.attempts| == 0 {
      return Success(CostResult(ZERO, Nothing()));
    }
    hide CostOf, Resolve, LinesFor, StatusOf, Total, ParamsFor, Worse, Charged;
    var c := Nothing();
    NothingCost(items, q);
    for i := 0 to |q.attempts|
      invariant CostOf(items, q, i) == Success(c)
    {
      var a := q.attempts[i];
      CostStep(items, q, i, c);
      var isFallback := i > 0 && q.attempts[i - 1].providerId != a.providerId;
      var resolved := Resolve(items, ParamsFor(q, a));
      if resolved.Failure? {
        CostFailurePersists(items, q, i + 1);
        return Failure(AmbiguousSchedules(resolved.error.score));
      }
      if resolved.value.None? {
        UnresolvedCharge(c, a, isFallback);
        if a.input > 0 || a.output > 0 {
          c := c.(status := Unpriced);
        }
      } else {
        var p := resolved.value.value;
        var priced := PriceAttempt(a, p, c.status);
        if priced.Failure? {
          CostFailurePersists(items, q, i + 1);
          return Failure(priced.error);
        }
        var (lines, attemptCost, status) := priced.value;
        ChargedParts(c, a, isFallback, p, lines);
        var retry, fallback, successful := c.retry, c.fallback, c.successful;
        if a.status == Completed {
          if isFallback {
            fallback := Add(fallback, attemptCost);
          }
          successful := Add(successful, attemptCost);
        } else if isFallback {
          fallback := Add(fallback, attemptCost);
        } else {
          retry := Add(retry, attemptCost);
        }
        c := Cost(c.lines + lines, c.versions + {(p.schedule.id, p.schedule.version)}, status,
                  retry, fallback, successful);
      }
    }
    var subtotal := Subtotal(c.lines);
    return Success(CostResult(subtotal, c));
  }

  method Subtotal(lines: seq<Line>) returns (subtotal: Decimal)
    ensures subtotal == Total(lines)
  {
    subtotal := ZERO;
    for i := 0 to |lines|
      invariant subtotal == Total(lines[..i])
    {
      assert lines[..i + 1] == lines[..i] + [lines[i]];
      TotalSnoc(lines[..i], lines[i]);
      subtotal := Add(subtotal, lines[i].amount);
    }
    assert lines[..|lines|] == lines;
  }

  lemma NothingCost(items: seq<Priced>, q: Request)
    ensures CostOf(items, q, 0) == Success(Nothing())
  {
  }

  lemma CostStep(items: seq<Priced>, q: Request, i: nat, c: Cost)
    requires i < |q.attempts| && CostOf(items, q, i) == Success(c)
    ensures var a := q.attempts[i];
            var resolved := Resolved(items, q, a);
            && (resolved.Failure? ==> CostOf(items, q, i + 1) == Failure(resolved.error))
            && (resolved.Success? ==>
                  var lines := AttemptLines(a, resolved.value);
                  CostOf(items, q, i + 1)
                  == if lines.Failure? then Failure(lines.error)
                     else Success(Charged(c, a, IsFallback(q.attempts, i), resolved.value, lines.value)))
  {
  }

  lemma UnresolvedCharge(c: Cost, a: Attempt, fallback: bool)
    ensures AttemptLines(a, None) == Success([])
    ensures Charged(c, a, fallback, None, []) == if a.input > 0 || a.output > 0 then c.(status := Unpriced) else c
  {
  }

  lemma ChargedParts(c: Cost, a: Attempt, fallback: bool, p: Priced, lines: seq<Line>)
    ensures var cost, n := Total(lines), Charged(c, a, fallback, Some(p), lines);
            && n.lines == c.lines + lines
            && n.versions == c.versions + {(p.schedule.id, p.schedule.version)}
            && n.status == Worse(c.status, StatusOf(a, Some(p)))
            && n.retry == (if a.status != Completed && !fallback then Add(c.retry, cost) else c.retry)
            && n.fallback == (if fallback then Add(c.fallback, cost) else c.fallback)
            && n.successful == (if a.status == Completed then Add(c.successful, cost) else c.successful)
  {
    hide Total, StatusOf;
  }

  // ---------------------------------------------------------------- what the totals mean

  /** The cost of one attempt: the sum of its lines. */
  function AttemptCost(items: seq<Priced>, q: Request, i: nat): int
    requires i < |q.attempts|
  {
    var r := Resolved(items, q, q.attempts[i]);
    if r.Failure? then 0
    else
      var lines := AttemptLines(q.attempts[i], r.value);
      if lines.Failure? then 0 else Total(lines.value).raw
  }

  function AttemptStatusOf(items: seq<Priced>, q: Request, i: nat): CostStatus
    requires i < |q.attempts|
  {
    var r := Resolved(items, q, q.attempts[i]);
    if r.Failure? then Exact else StatusOf(q.attempts[i], r.value)
  }

  /** What the attempts of one kind cost, among the first `n`. */
  function Part(items: seq<Priced>, q: Request, n: nat, completed: bool, fallback: bool): int
    requires n <= |q.attempts|
  {
    if n == 0 then 0
    else
      Part(items, q, n - 1, completed, fallback)
      + if (q.attempts[n - 1].status == Completed) == completed && IsFallback(q.attempts, n - 1) == fallback then
          AttemptCost(items, q, n - 1)
        else 0
  }

  function AllAttempts(items: seq<Priced>, q: Request, n: nat): int
    requires n <= |q.attempts|
  {
    if n == 0 then 0 else AllAttempts(items, q, n - 1) + AttemptCost(items, q, n - 1)
  }

  lemma {:induction false} Breakdown(items: seq<Priced>, q: Request, n: nat)
    requires n <= |q.attempts| && CostOf(items, q, n).Success?
    ensures var c := CostOf(items, q, n).value;
            && Total(c.lines).raw == AllAttempts(items, q, n)
            && c.retry.raw == Part(items, q, n, false, false)
            && c.fallback.raw == Part(items, q, n, false, true) + Part(items, q, n, true, true)
            && c.successful.raw == Part(items, q, n, true, false) + Part(items, q, n, true, true)
            && AllAttempts(items, q, n)
               == Part(items, q, n, false, false) + Part(items, q, n, false, true)
                + Part(items, q, n, true, false) + Part(items, q, n, true, true)
  {
    hide Resolved, AttemptLines, StatusOf, SumBy;
    if n > 0 {
      Breakdown(items, q, n - 1);
      var a := q.attempts[n - 1];
      var resolved := Resolved(items, q, a).value;
      var lines := AttemptLines(a, resolved).value;
      var before := CostOf(items, q, n - 1).value;
      SumConcat(AmountOf, before.lines, lines);
      if resolved.None? {
        NoLines(a);
      }
    } else {
      NothingTotal();
    }
  }

  lemma NoLines(a: Attempt)
    ensures AttemptLines(a, None) == Success([]) && Total([]).raw == 0
  {
  }

  lemma NothingTotal()
    ensures Total([]).raw == 0
  {
  }

  /** No attempt among the first `n` is worse than `s`, and one is that bad unless all are exact. */
  ghost predicate IsWorst(items: seq<Priced>, q: Request, n: nat, s: CostStatus)
    requires n <= |q.attempts|
  {
    && (forall i :: 0 <= i < n ==> Rank(AttemptStatusOf(items, q, i)) <= Rank(s))
    && (s == Exact || exists i :: 0 <= i < n && AttemptStatusOf(items, q, i) == s)
  }

  lemma StatusStep(items: seq<Priced>, q: Request, n: nat)
    requires 0 < n <= |q.attempts| && CostOf(items, q, n).Success?
    ensures CostOf(items, q, n - 1).Success?
    ensures CostOf(items, q, n).value.status
         == Worse(CostOf(items, q, n - 1).value.status, AttemptStatusOf(items, q, n - 1))
  {
    hide Resolved, AttemptLines, StatusOf, Total, Worse;
  }

  lemma {:induction false} StatusIsWorst(items: seq<Priced>, q: Request, n: nat)
    requires n <= |q.attempts| && CostOf(items, q, n).Success?
    ensures IsWorst(items, q, n, CostOf(items, q, n).value.status)
  {
    hide CostOf, AttemptStatusOf;
    if n == 0 {
      NothingCost(items, q);
    } else {
      StatusStep(items, q, n);
      StatusIsWorst(items, q, n - 1);
    }
  }

  lemma OneWorst(items: seq<Priced>, q: Request, n: nat, s: CostStatus, t: CostStatus)
    requires n <= |q.attempts| && IsWorst(items, q, n, s) && IsWorst(items, q, n, t)
    ensures s == t
  {
    hide AttemptStatusOf;
    RankOne(s, t);
  }

  lemma WorstStatus(items: seq<Priced>, q: Request, n: nat, s: CostStatus)
    requires n <= |q.attempts| && CostOf(items, q, n).Success?
    ensures CostOf(items, q, n).value.status == s <==> IsWorst(items, q, n, s)
  {
    hide CostOf, IsWorst;
    StatusIsWorst(items, q, n);
    if IsWorst(items, q, n, s) {
      OneWorst(items, q, n, s, CostOf(items, q, n).value.status);
    }
  }

  lemma RankOne(a: CostStatus, b: CostStatus)
    ensures Rank(a) == Rank(b) <==> a == b
  {
  }

  /** A request that is priced costs what its attempts cost and what its lines say. Failed attempts on
      the same provider are retry cost, attempts on another provider fallback cost, completed ones
      successful cost: so together these exceed the subtotal by what completed fallback attempts
      cost, which is counted twice. The status is the worst of the attempts'. */
  lemma CostAddsUp(items: seq<Priced>, q: Request)
    requires !q.cacheHit && RequestCost(items, q).Success?
    ensures var r := RequestCost(items, q).value;
            var n := |q.attempts|;
            && r.subtotal == Total(r.cost.lines)
            && r.subtotal.raw == AllAttempts(items, q, n)
            && r.cost.retry.raw == Part(items, q, n, false, false)
            && r.cost.fallback.raw == Part(items, q, n, false, true) + Part(items, q, n, true, true)
            && r.cost.successful.raw == Part(items, q, n, true, false) + Part(items, q, n, true, true)
            && r.cost.retry.raw + r.cost.fallback.raw + r.cost.successful.raw
               == r.subtotal.raw + Part(items, q, n, true, true)
            && IsWorst(items, q, n, r.cost.status)
  {
    hide AllAttempts, Part, AttemptStatusOf, Total, CostOf;
    NothingCosts(items, q);
    if q.attempts != [] {
      Breakdown(items, q, |q.attempts|);
      WorstStatus(items, q, |q.attempts|, CostOf(items, q, |q.attempts|).value.status);
    } else {
      NothingTotal();
    }
  }

  lemma NothingCosts(items: seq<Priced>, q: Request)
    ensures AllAttempts(items, q, 0) == 0 && forall c, f :: Part(items, q, 0, c, f) == 0
  {
  }

  // ---------------------------------------------------------------- usage that nothing prices

  predicate HasLine(lines: seq<Line>, t: UsageType) {
    exists i :: 0 <= i < |lines| && lines[i].usageType == t
  }

  lemma {:induction false} LineIff(a: Attempt, p: Priced, types: seq<UsageType>, t: UsageType)
    requires LinesFor(a, p, types).Success?
    ensures HasLine(LinesFor(a, p, types).value, t)
       <==> t in types && Quantity(a, t) > 0 && RateApplied(p.rates, t).Some?
  {
    hide RateApplied, FromUnits, Quantity;
    if types != [] {
      var front, u := types[..|types| - 1], types[|types| - 1];
      assert types == front + [u];
      LineIff(a, p, front, t);
      var before, line := LinesFor(a, p, front).value, LineFor(a, p, u).value;
      var all := before + line;
      assert LinesFor(a, p, types).value == all;
      if HasLine(before, t) {
        var i :| 0 <= i < |before| && before[i].usageType == t;
        assert all[i].usageType == t;
      }
      if line != [] {
        assert all[|before|] == line[0];
      }
      if HasLine(all, t) {
        var i :| 0 <= i < |all| && all[i].usageType == t;
        assert i < |before| ==> before[i].usageType == t;
      }
    }
  }

  lemma BilledTypes()
    ensures forall t :: t in BILLED <==> !t.OtherUsage?
  {
    assert BILLED[0] == InputTokens && BILLED[1] == OutputTokens && BILLED[2] == CachedInputTokens;
    assert BILLED[3] == ReasoningTokens && BILLED[4] == SearchCalls;
  }

  /** The kinds of usage an attempt reports. */
  datatype UsageKind = InputUse | OutputUse | CachedUse | ReasoningUse | SearchUse | ImageUse | AudioUse

  function Used(a: Attempt, k: UsageKind): int {
    match k
    case InputUse => a.input
    case OutputUse => a.output
    case CachedUse => a.cached.GetOr(0)
    case ReasoningUse => a.reasoning.GetOr(0)
    case SearchUse => a.search.GetOr(0)
    case ImageUse => a.image.GetOr(0)
    case AudioUse => a.audio.GetOr(0)
  }

  /** What a kind of usage is billed as, if at all. */
  function BilledAs(k: UsageKind): Option<UsageType> {
    match k
    case InputUse => Some(InputTokens)
    case OutputUse => Some(OutputTokens)
    case CachedUse => Some(CachedInputTokens)
    case ReasoningUse => Some(ReasoningTokens)
    case SearchUse => Some(SearchCalls)
    case ImageUse => None
    case AudioUse => None
  }

  predicate HasLineFor(lines: seq<Line>, k: UsageKind) {
    BilledAs(k).Some? && HasLine(lines, BilledAs(k).value)
  }

  /** There is a rate for the kind of usage, under the schedule found. */
  predicate IsRated(resolved: Option<Priced>, k: UsageKind) {
    resolved.Some? && BilledAs(k).Some? && RateApplied(resolved.value.rates, BilledAs(k).value).Some?
  }

  /** An attempt has a line for a kind of usage exactly if there was some, a schedule was found, and it
      has a rate for it, which it never has for images or audio. */
  lemma BilledIff(a: Attempt, resolved: Option<Priced>, k: UsageKind)
    requires AttemptLines(a, resolved).Success?
    ensures HasLineFor(AttemptLines(a, resolved).value, k) <==> Used(a, k) > 0 && IsRated(resolved, k)
  {
    hide LinesFor, RateApplied, HasLine;
    BilledTypes();
    if resolved.None? {
      NoLineIn(k);
    } else if BilledAs(k).Some? {
      LineIff(a, resolved.value, BILLED, BilledAs(k).value);
    }
  }

  lemma NoLineIn(k: UsageKind)
    ensures !HasLineFor([], k)
  {
  }

  /** Some usage is on no line, and the status does not show it. */
  ghost predicate GoesUnbilled(a: Attempt, resolved: Option<Priced>)
    requires AttemptLines(a, resolved).Success?
  {
    (exists k :: Used(a, k) > 0 && !HasLineFor(AttemptLines(a, resolved).value, k)) && StatusOf(a, resolved) != Unpriced
  }

  /** Usage goes unbilled exactly if input and output that were used have a rate, but images or audio
      were used too, or cached input, reasoning or search calls that have none. Without a schedule
      nothing has a rate. */
  lemma UnbilledUsage(a: Attempt, resolved: Option<Priced>)
    requires AttemptLines(a, resolved).Success?
    ensures GoesUnbilled(a, resolved)
       <==> && (a.input > 0 ==> IsRated(resolved, InputUse))
            && (a.output > 0 ==> IsRated(resolved, OutputUse))
            && (|| Used(a, ImageUse) > 0
                || Used(a, AudioUse) > 0
                || (Used(a, CachedUse) > 0 && !IsRated(resolved, CachedUse))
                || (Used(a, ReasoningUse) > 0 && !IsRated(resolved, ReasoningUse))
                || (Used(a, SearchUse) > 0 && !IsRated(resolved, SearchUse)))
  {
    hide AttemptLines, RateFor, HasLineFor;
    forall k
      ensures HasLineFor(AttemptLines(a, resolved).value, k) <==> Used(a, k) > 0 && IsRated(resolved, k)
    {
      BilledIff(a, resolved, k);
    }
    assert !IsRated(resolved, ImageUse) && !IsRated(resolved, AudioUse);
  }

  /** Images cost nothing, whatever the schedule says of them, ... */
  lemma ImagesAreFree(a: Attempt, p: Priced)
    requires a.input <= 0 && a.output <= 0 && a.cached.None? && a.reasoning.None? && a.search.None?
    requires a.image == Some(1) && a.usageSource == ProviderReported
    ensures AttemptLines(a, Some(p)) == Success([]) && StatusOf(a, Some(p)) == Exact
    ensures GoesUnbilled(a, Some(p))
  {
    hide RateApplied, RateFor, FromUnits;
    NothingUsed(a, p, BILLED);
    UnbilledUsage(a, Some(p));
  }

  lemma {:induction false} NothingUsed(a: Attempt, p: Priced, types: seq<UsageType>)
    requires forall t :: Quantity(a, t) <= 0
    ensures LinesFor(a, p, types) == Success([])
  {
    hide RateApplied, FromUnits;
    if types != [] {
      NothingUsed(a, p, types[..|types| - 1]);
      var none: seq<Line> := [];
      assert none + none == none;
    }
  }

  /** ... and so do search calls of a provider without a schedule: the request is priced as exact. */
  lemma SearchWithoutSchedule(a: Attempt)
    requires a.input == 0 && a.output == 0 && a.search == Some(1)
    ensures AttemptLines(a, None) == Success([]) && StatusOf(a, None) == Exact
    ensures GoesUnbilled(a, None)
  {
    UnbilledUsage(a, None);
  }
}
