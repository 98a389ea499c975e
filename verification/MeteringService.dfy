/** The lifecycle of requests and provider attempts, and the usage they put in the ledger
    (packages/metering/src/metering-service.ts). */
module MeteringService {
  import opened Collections
  import opened Digits
  import opened Sorting
  import opened Sums
  import opened Text
  import opened UsageLedger

  datatype AttemptStatus = Started | Completed | Failed | Cancelled

  datatype Source =
    | ProviderReported | ProviderStreamReported | Estimated | Reconciled | ManualCorrection | Unavailable

  datatype Quality = QualityReported | QualityEstimated | QualityMixed | QualityIncomplete

  datatype MeteringStatus = Pending | Complete | Incomplete | ReconciledStatus

  datatype Usage = Usage(input: int, output: int, total: int, cached: Option<int>, reasoning: Option<int>)

  datatype Attempt = Attempt(
    id: string, requestId: string, attemptNumber: int, providerId: string, status: AttemptStatus,
    source: Source, usage: Usage)

  datatype Consumption = Consumption(
    input: int, output: int, total: int, cached: Option<int>, reasoning: Option<int>,
    attemptCount: nat, failedAttemptCount: nat)

  datatype Request = Request(
    requestId: string, organizationId: string, workspaceId: string, apiKeyId: Option<string>,
    canonicalModelId: string, status: string, finalAttemptId: Option<string>,
    attemptCount: nat, retryCount: nat, fallbackCount: nat,
    meteringStatus: MeteringStatus, quality: Quality, logical: Usage, consumption: Consumption)

  /** Usage as a provider adapter hands it over. */
  datatype Reported = Reported(
    input: Option<int>, output: Option<int>, total: Option<int>, cached: Option<int>, reasoning: Option<int>,
    source: Source)

  /** The ids generated for the events an attempt may append. */
  type Ids = UsageType -> string

  datatype World = World(requests: map<string, Request>, attempts: seq<Attempt>, ledger: Ledger)

  function NoUsage(): Usage {
    Usage(0, 0, 0, None, None)
  }

  /** What a caller tells of a request when it starts. */
  datatype Opening = Opening(
    requestId: string, organizationId: string, workspaceId: string, apiKeyId: Option<string>,
    canonicalModelId: string)

  /** The record of a request that has just started. */
  function Opened(o: Opening): Request {
    Request(o.requestId, o.organizationId, o.workspaceId, o.apiKeyId, o.canonicalModelId, "executing", None, 0, 0, 0,
            Pending, QualityReported, NoUsage(), Consumption(0, 0, 0, None, None, 0, 0))
  }

  // ---------------------------------------------------------------- attempts

  predicate HasAttempt(attempts: seq<Attempt>, id: string) {
    exists i :: 0 <= i < |attempts| && attempts[i].id == id
  }

  function IndexOf(attempts: seq<Attempt>, id: string): (i: nat)
    requires HasAttempt(attempts, id)
    ensures i < |attempts| && attempts[i].id == id
  {
    if attempts[|attempts| - 1].id == id then |attempts| - 1 else IndexOf(attempts[..|attempts| - 1], id)
  }

  /** Saving under a known id replaces in place. */
  function Saved(attempts: seq<Attempt>, a: Attempt): seq<Attempt> {
    if HasAttempt(attempts, a.id) then attempts[IndexOf(attempts, a.id) := a] else attempts + [a]
  }

  function UsageFrom(u: Reported): Usage {
    var input, output := u.input.GetOr(0), u.output.GetOr(0);
    Usage(input, output, u.total.GetOr(input + output), u.cached, u.reasoning)
  }

  function NotReported(): Reported {
    Reported(None, None, None, None, None, Unavailable)
  }

  function Closed(a: Attempt, status: AttemptStatus, u: Reported): Attempt {
    a.(status := status, source := u.source, usage := UsageFrom(u))
  }

  // ---------------------------------------------------------------- events of an attempt

  function TypeName(t: UsageType): string {
    match t
    case InputTokens => "input_tokens"
    case OutputTokens => "output_tokens"
    case TotalTokens => "total_tokens"
    case CachedInputTokens => "cached_input_tokens"
    case ReasoningTokens => "reasoning_tokens"
    case ImageInputUnits => "image_input_units"
    case ImageOutputUnits => "image_output_units"
    case AudioInputSeconds => "audio_input_seconds"
    case AudioOutputSeconds => "audio_output_seconds"
    case VideoSeconds => "video_seconds"
    case EmbeddingTokens => "embedding_tokens"
    case SearchCalls => "search_calls"
    case ToolCalls => "tool_calls"
  }

  function KeyText(requestId: string, attemptId: string, t: UsageType, n: int): string {
    requestId + ":" + attemptId + ":" + TypeName(t) + ":" + PrintInt(n)
  }

  function EventOf(q: Request, a: Attempt, id: string, t: UsageType, quantity: int, at: int): UsageEvent {
    UsageEvent(id, KeyText(q.requestId, a.id, t, a.attemptNumber), q.requestId, Some(a.id), q.organizationId,
               q.workspaceId, q.apiKeyId, q.canonicalModelId, Some(a.providerId), t, quantity, at)
  }

  function Amount(u: Usage, t: UsageType): int {
    match t
    case InputTokens => u.input
    case OutputTokens => u.output
    case TotalTokens => u.total
    case CachedInputTokens => u.cached.GetOr(0)
    case ReasoningTokens => u.reasoning.GetOr(0)
    case _ => 0
  }

  /** Only what was used is recorded. */
  function EventsFor(q: Request, a: Attempt, ids: Ids, at: int, types: seq<UsageType>): seq<UsageEvent> {
    if types == [] then []
    else
      var t := types[|types| - 1];
      EventsFor(q, a, ids, at, types[..|types| - 1])
      + if Amount(a.usage, t) > 0 then [EventOf(q, a, ids(t), t, Amount(a.usage, t), at)] else []
  }

  const RECORDED: seq<UsageType> := [InputTokens, OutputTokens, TotalTokens, CachedInputTokens, ReasoningTokens]

  function EventsOf(q: Request, a: Attempt, ids: Ids, at: int): seq<UsageEvent> {
    EventsFor(q, a, ids, at, RECORDED)
  }

  // ---------------------------------------------------------------- operations

  datatype Operation =
    | StartRequest(opening: Opening)
    | StartAttempt(id: string, requestId: string, attemptNumber: int, providerId: string)
    | CompleteAttempt(attemptId: string, requestId: string, usage: Reported, ids: Ids, at: int)
    | FailAttempt(attemptId: string, requestId: string, partial: Option<Reported>, ids: Ids, at: int)
    | CancelAttempt(attemptId: string, requestId: string, partial: Option<Reported>, ids: Ids, at: int)
    | CompleteRequest(requestId: string, status: string, finalAttemptId: Option<string>)

  /** Failed and cancelled attempts are recorded only if they used input or output. */
  function Close(
    w: World, id: string, requestId: string, status: AttemptStatus, u: Reported, always: bool, ids: Ids, at: int): World
  {
    if !HasAttempt(w.attempts, id) then w
    else
      var a := Closed(w.attempts[IndexOf(w.attempts, id)], status, u);
      var saved := w.(attempts := Saved(w.attempts, a));
      if requestId in w.requests && (always || a.usage.input > 0 || a.usage.output > 0) then
        saved.(ledger := AppendedAll(w.ledger, EventsOf(w.requests[requestId], a, ids, at)))
      else saved
  }

  function Step(w: World, o: Operation): World {
    match o
    case StartRequest(q) =>
      if q.requestId in w.requests then w else w.(requests := w.requests[q.requestId := Opened(q)])
    case StartAttempt(id, requestId, n, provider) =>
      w.(attempts := Saved(w.attempts, Attempt(id, requestId, n, provider, Started, Unavailable, NoUsage())))
    case CompleteAttempt(id, requestId, u, ids, at) => Close(w, id, requestId, Completed, u, true, ids, at)
    case FailAttempt(id, requestId, u, ids, at) =>
      Close(w, id, requestId, Failed, u.GetOr(NotReported()), false, ids, at)
    case CancelAttempt(id, requestId, u, ids, at) =>
      Close(w, id, requestId, Cancelled, u.GetOr(NotReported()), false, ids, at)
    case CompleteRequest(requestId, status, finalAttemptId) =>
      if requestId !in w.requests then w
      else
        w.(requests := w.requests[requestId :=
          Finalized(w.requests[requestId], AttemptsOf(w.attempts, requestId), status, finalAttemptId)])
  }

  function Run(operations: seq<Operation>): World {
    if operations == [] then World(map[], [], Ledger([], {}, map[]))
    else Step(Run(operations[..|operations| - 1]), operations[|operations| - 1])
  }

  // ---------------------------------------------------------------- finishing a request

  function Belonging(attempts: seq<Attempt>, requestId: string): seq<Attempt> {
    if attempts == [] then []
    else
      (if attempts[0].requestId == requestId then [attempts[0]] else []) + Belonging(attempts[1..], requestId)
  }

  predicate Numbered(a: Attempt, b: Attempt) {
    a.attemptNumber <= b.attemptNumber
  }

  function AttemptsOf(attempts: seq<Attempt>, requestId: string): seq<Attempt> {
    Sort(Numbered, Belonging(attempts, requestId))
  }

  function Retries(s: seq<Attempt>): nat {
    if |s| < 2 then 0
    else Retries(s[..|s| - 1]) + if s[|s| - 1].providerId == s[|s| - 2].providerId then 1 else 0
  }

  function Fallbacks(s: seq<Attempt>): nat {
    if |s| < 2 then 0
    else Fallbacks(s[..|s| - 1]) + if s[|s| - 1].providerId == s[|s| - 2].providerId then 0 else 1
  }

  predicate IsFinal(a: Attempt, finalAttemptId: Option<string>) {
    if finalAttemptId.Some? && finalAttemptId.value != "" then a.id == finalAttemptId.value
    else a.status == Completed
  }

  function FindFinal(s: seq<Attempt>, finalAttemptId: Option<string>): Option<Attempt> {
    if s == [] then None
    else if IsFinal(s[0], finalAttemptId) then Some(s[0])
    else FindFinal(s[1..], finalAttemptId)
  }

  /** The named attempt, or else the first completed one, or else the last. */
  function FinalAttempt(s: seq<Attempt>, finalAttemptId: Option<string>): Option<Attempt> {
    var found := FindFinal(s, finalAttemptId);
    if found.Some? then found else if s == [] then None else Some(s[|s| - 1])
  }

  /** The final attempt is the first one that was named, or else completed; failing that, the last. */
  lemma {:induction false} FinalAttemptMeans(s: seq<Attempt>, finalAttemptId: Option<string>, i: nat)
    requires i < |s| && forall j :: 0 <= j < i ==> !IsFinal(s[j], finalAttemptId)
    ensures IsFinal(s[i], finalAttemptId) ==> FinalAttempt(s, finalAttemptId) == Some(s[i])
    ensures i == |s| - 1 ==> FinalAttempt(s, finalAttemptId) == Some(s[i])
  {
    if i > 0 {
      FinalAttemptMeans(s[1..], finalAttemptId, i - 1);
      assert s[1..][|s| - 2] == s[|s| - 1];
    } else if |s| == 1 {
      assert FindFinal(s[1..], finalAttemptId) == None;
    }
  }

  function InputOf(a: Attempt): int {
    a.usage.input
  }

  function OutputOf(a: Attempt): int {
    a.usage.output
  }

  function CachedOf(a: Attempt): int {
    a.usage.cached.GetOr(0)
  }

  function ReasoningOf(a: Attempt): int {
    a.usage.reasoning.GetOr(0)
  }

  function FailureOf(a: Attempt): int {
    if a.status == Failed then 1 else 0
  }

  predicate IsReported(a: Attempt) {
    a.source == ProviderReported || a.source == ProviderStreamReported
  }

  function QualityFrom(reported: bool, estimated: bool, unavailable: bool): Quality {
    if reported && (estimated || unavailable) then QualityMixed
    else if estimated then QualityEstimated
    else if unavailable && !reported then QualityIncomplete
    else QualityReported
  }

  predicate IsEstimated(a: Attempt) {
    a.source == Estimated
  }

  predicate IsUnavailable(a: Attempt) {
    a.source == Unavailable
  }

  predicate Any(p: Attempt -> bool, s: seq<Attempt>) {
    s != [] && (Any(p, s[..|s| - 1]) || p(s[|s| - 1]))
  }

  lemma {:induction false} AnyMeans(p: Attempt -> bool, s: seq<Attempt>)
    ensures Any(p, s) <==> exists a :: a in s && p(a)
  {
    if s != [] {
      AnyMeans(p, s[..|s| - 1]);
      assert s == s[..|s| - 1] + [s[|s| - 1]];
    }
  }

  function QualityOf(s: seq<Attempt>): Quality {
    QualityFrom(Any(IsReported, s), Any(IsEstimated, s), Any(IsUnavailable, s))
  }

  /** A request's metering is incomplete exactly if some attempt's usage is unavailable and no other
      attempt reported or estimated any. */
  lemma IncompleteMeans(s: seq<Attempt>)
    ensures QualityOf(s) == QualityIncomplete
       <==> (exists a :: a in s && a.source == Unavailable)
            && forall a :: a in s ==> !IsReported(a) && a.source != Estimated
  {
    AnyMeans(IsReported, s);
    AnyMeans(IsEstimated, s);
    AnyMeans(IsUnavailable, s);
    assert forall a: Attempt :: IsEstimated(a) == (a.source == Estimated);
    assert forall a: Attempt :: IsUnavailable(a) == (a.source == Unavailable);
  }

  function Positive(n: int): Option<int> {
    if n > 0 then Some(n) else None
  }

  function Consumed(s: seq<Attempt>): Consumption {
    var input, output := SumBy(InputOf, s), SumBy(OutputOf, s);
    FailuresCounted(s);
    Consumption(input, output, input + output, Positive(SumBy(CachedOf, s)), Positive(SumBy(ReasoningOf, s)),
                |s|, SumBy(FailureOf, s))
  }

  lemma FailuresCounted(s: seq<Attempt>)
    ensures SumBy(FailureOf, s) >= 0
  {
    SumNonNegative(FailureOf, s);
  }

  function Finalized(q: Request, s: seq<Attempt>, status: string, finalAttemptId: Option<string>): Request {
    var last := FinalAttempt(s, finalAttemptId);
    var quality := QualityOf(s);
    q.(status := status, finalAttemptId := if last.Some? then Some(last.value.id) else None,
       attemptCount := |s|, retryCount := Retries(s), fallbackCount := Fallbacks(s),
       meteringStatus := if quality == QualityIncomplete then Incomplete else Complete, quality := quality,
       logical := if last.Some? && last.value.status == Completed then last.value.usage else NoUsage(),
       consumption := Consumed(s))
  }

  /** Each attempt after the first is either a retry or a fallback. */
  lemma {:induction false} RetriesAndFallbacks(s: seq<Attempt>)
    ensures Retries(s) + Fallbacks(s) == if s == [] then 0 else |s| - 1
  {
    if |s| >= 2 {
      RetriesAndFallbacks(s[..|s| - 1]);
    }
  }

  // ---------------------------------------------------------------- the books

  function LedgerShare(requestId: string, t: UsageType): UsageEvent -> int {
    (e: UsageEvent) => if e.requestId == requestId && e.usageType == t then e.quantity else 0
  }

  /** What the ledger holds of one type of usage for a request. */
  function Ledgered(l: Ledger, requestId: string, t: UsageType): int {
    SumBy(LedgerShare(requestId, t), l.events)
  }

  function AttemptShare(requestId: string, f: Attempt -> int): Attempt -> int {
    (a: Attempt) => if a.requestId == requestId then f(a) else 0
  }

  /** For every request the ledger holds the input and output of its attempts. */
  ghost predicate BooksAgree(w: World) {
    && (forall r :: Ledgered(w.ledger, r, InputTokens) == SumBy(AttemptShare(r, InputOf), w.attempts))
    && (forall r :: Ledgered(w.ledger, r, OutputTokens) == SumBy(AttemptShare(r, OutputOf), w.attempts))
  }

  predicate Plain(id: string) {
    ':' !in id
  }

  /** A closed attempt with a key in the ledger. */
  ghost predicate KeyOfClosed(w: World, key: string) {
    exists i, r, t, n ::
      && 0 <= i < |w.attempts| && w.attempts[i].status != Started
      && Plain(r) && Plain(w.attempts[i].id) && key == KeyText(r, w.attempts[i].id, t, n)
  }

  ghost predicate Orderly(w: World) {
    && (forall i, j :: 0 <= i < j < |w.attempts| ==> w.attempts[i].id != w.attempts[j].id)
    && (forall i :: 0 <= i < |w.attempts| ==>
          Plain(w.attempts[i].id) && (w.attempts[i].status == Started ==> w.attempts[i].usage == NoUsage()))
    && (forall r :: r in w.requests ==> w.requests[r].requestId == r && Plain(r))
    && (forall key :: key in w.ledger.idempotencyIndex ==> KeyOfClosed(w, key))
  }

  lemma PrintPlain(n: int)
    ensures Plain(PrintInt(n))
  {
    assert AllDigits(PrintNat(if n < 0 then -n else n));
  }

  lemma TypeNamePlain(t: UsageType)
    ensures Plain(TypeName(t))
  {
  }

  lemma KeyTextParts(r: string, id: string, t: UsageType, n: int)
    requires Plain(r) && Plain(id)
    ensures Split(KeyText(r, id, t, n), ':') == [r, id, TypeName(t), PrintInt(n)]
  {
    hide TypeName, PrintInt, Split;
    PrintPlain(n);
    TypeNamePlain(t);
    var c := TypeName(t) + [':'] + PrintInt(n);
    var b := id + [':'] + c;
    assert KeyText(r, id, t, n) == r + [':'] + b;
    SplitFirst(r, ':', b);
    SplitFirst(id, ':', c);
    SplitFirst(TypeName(t), ':', PrintInt(n));
    SplitWhole(PrintInt(n), ':');
  }

  lemma TypeNamesDiffer(t: UsageType, u: UsageType)
    requires t != u
    ensures TypeName(t) != TypeName(u)
  {
    assert TypeName(t)[0] != TypeName(u)[0] || |TypeName(t)| != |TypeName(u)|;
  }

  lemma KeyTextColons(r: string, id: string, t: UsageType, n: int)
    ensures |Split(KeyText(r, id, t, n), ':')| == 4 <==> Plain(r) && Plain(id)
  {
    hide TypeName, PrintInt, Split;
    PrintPlain(n);
    TypeNamePlain(t);
    var c := TypeName(t) + [':'] + PrintInt(n);
    var b := id + [':'] + c;
    assert KeyText(r, id, t, n) == r + [':'] + b;
    SplitCounts(r, ':', b);
    SplitCounts(id, ':', c);
    SplitCounts(TypeName(t), ':', PrintInt(n));
    SplitCounts(PrintInt(n), ':', "");
  }

  lemma KeyTextJoins(r: string, id: string, t: UsageType, n: int)
    ensures KeyText(r, id, t, n) == (r + [':'] + id) + (":" + TypeName(t) + ":" + PrintInt(n))
  {
    hide TypeName, PrintInt;
  }

  /** Another attempt with the same key: a colon can be read as the end of the request's id. */
  lemma AttemptNamesake(r: string, id: string, t: UsageType, n: int) returns (r2: string, id2: string)
    requires !Plain(r) || !Plain(id)
    ensures r2 != r && KeyText(r2, id2, t, n) == KeyText(r, id, t, n)
  {
    hide TypeName, PrintInt, KeyText;
    if !Plain(r) {
      var i := ColonIn(r);
      r2, id2 := r[..i], r[i + 1..] + [':'] + id;
      CutAtColon(r, id, i);
    } else {
      var i := ColonIn(id);
      r2, id2 := r + [':'] + id[..i], id[i + 1..];
      CutAtColon(id, "", i);
      Regroup(r, id[..i], id[i + 1..]);
    }
    KeyTextJoins(r, id, t, n);
    KeyTextJoins(r2, id2, t, n);
  }

  /** No other usage has the idempotency key of an attempt's usage exactly if the ids of the attempt and
      its request have no colon. */
  lemma UsageKeysAreUnique(r: string, id: string, t: UsageType, n: int)
    ensures (forall r2, id2, t2, n2 :: KeyText(r2, id2, t2, n2) == KeyText(r, id, t, n) ==>
               r2 == r && id2 == id && t2 == t && n2 == n)
       <==> Plain(r) && Plain(id)
  {
    hide TypeName, PrintInt, Split, KeyText;
    if Plain(r) && Plain(id) {
      forall r2, id2, t2, n2 | KeyText(r2, id2, t2, n2) == KeyText(r, id, t, n)
        ensures r2 == r && id2 == id && t2 == t && n2 == n
      {
        KeyTextColons(r, id, t, n);
        KeyTextColons(r2, id2, t2, n2);
        KeyTextParts(r, id, t, n);
        KeyTextParts(r2, id2, t2, n2);
        PrintIntInjective(n, n2);
        if t != t2 {
          TypeNamesDiffer(t, t2);
        }
      }
    } else {
      var r2, id2 := AttemptNamesake(r, id, t, n);
    }
  }

  /** The ids are not in the ledger, and differ. */
  ghost predicate FreshIds(l: Ledger, ids: Ids) {
    && (forall t :: IsToken(t) ==> !HasId(l.events, ids(t)))
    && (forall t, u :: IsToken(t) && IsToken(u) && t != u ==> ids(t) != ids(u))
  }

  /** No event of the attempt has been recorded. */
  ghost predicate Unrecorded(l: Ledger, q: Request, a: Attempt) {
    forall t :: IsToken(t) ==> KeyText(q.requestId, a.id, t, a.attemptNumber) !in l.idempotencyIndex
  }

  lemma KeysDiffer(q: Request, a: Attempt, t: UsageType, u: UsageType)
    requires Plain(q.requestId) && Plain(a.id) && IsToken(t) && IsToken(u) && t != u
    ensures KeyText(q.requestId, a.id, t, a.attemptNumber) != KeyText(q.requestId, a.id, u, a.attemptNumber)
  {
    hide KeyText, TypeName;
    KeyTextParts(q.requestId, a.id, t, a.attemptNumber);
    KeyTextParts(q.requestId, a.id, u, a.attemptNumber);
    TypeNamesDiffer(t, u);
  }

  predicate AllTokens(types: seq<UsageType>) {
    NoRepeats(types) && forall t :: t in types ==> IsToken(t)
  }

  lemma EventsForTypes(q: Request, a: Attempt, ids: Ids, at: int, types: seq<UsageType>, e: UsageEvent)
    requires e in EventsFor(q, a, ids, at, types)
    ensures exists t :: t in types && e == EventOf(q, a, ids(t), t, Amount(a.usage, t), at)
  {
    var t := types[|types| - 1];
    assert t in types;
    if e != EventOf(q, a, ids(t), t, Amount(a.usage, t), at) {
      EventsForTypes(q, a, ids, at, types[..|types| - 1], e);
    }
  }

  /** The events of an attempt that has not been recorded are all accepted. */
  lemma {:induction false} AppendTypes(l: Ledger, q: Request, a: Attempt, ids: Ids, at: int, types: seq<UsageType>)
    requires AllTokens(types) && Plain(q.requestId) && Plain(a.id) && FreshIds(l, ids) && Unrecorded(l, q, a)
    ensures var es := EventsFor(q, a, ids, at, types);
            && AppendedAll(l, es).events == l.events + es
            && AppendedAll(l, es).idempotencyIndex == l.idempotencyIndex + (set e | e in es :: e.idempotencyKey)
  {
    hide AppendedAll, KeyText, FreshIds, Unrecorded, EventOf, HasId;
    if types == [] {
      AppendNothing(l);
      assert l.events + [] == l.events;
    } else {
      var front, t := types[..|types| - 1], types[|types| - 1];
      assert types == front + [t];
      AppendTypes(l, q, a, ids, at, front);
      var es := EventsFor(q, a, ids, at, front);
      if Amount(a.usage, t) > 0 {
        var e := EventOf(q, a, ids(t), t, Amount(a.usage, t), at);
        NewAmong(l, q, a, ids, at, front, t);
        AppendLast(l, es, e);
      } else {
        assert EventsFor(q, a, ids, at, types) == es + [] == es;
      }
    }
  }

  lemma AppendNothing(l: Ledger)
    ensures AppendedAll(l, []) == l
  {
  }

  lemma AppendLast(l: Ledger, es: seq<UsageEvent>, e: UsageEvent)
    requires AppendedAll(l, es).events == l.events + es
    requires AppendedAll(l, es).idempotencyIndex == l.idempotencyIndex + (set x | x in es :: x.idempotencyKey)
    requires !HasId(l.events + es, e.id)
    requires e.idempotencyKey !in l.idempotencyIndex + (set x | x in es :: x.idempotencyKey)
    ensures AppendedAll(l, es + [e]).events == l.events + (es + [e])
    ensures AppendedAll(l, es + [e]).idempotencyIndex
         == l.idempotencyIndex + (set x | x in es + [e] :: x.idempotencyKey)
  {
    hide IntoBoth;
    assert (es + [e])[..|es|] == es;
    assert l.events + (es + [e]) == (l.events + es) + [e];
    assert (set x | x in es + [e] :: x.idempotencyKey)
        == (set x | x in es :: x.idempotencyKey) + {e.idempotencyKey} by {
      assert forall x :: x in es + [e] <==> x in es || x == e;
    }
  }

  lemma NewAmong(l: Ledger, q: Request, a: Attempt, ids: Ids, at: int, front: seq<UsageType>, t: UsageType)
    requires AllTokens(front + [t]) && Plain(q.requestId) && Plain(a.id) && FreshIds(l, ids) && Unrecorded(l, q, a)
    ensures var es := EventsFor(q, a, ids, at, front);
            var e := EventOf(q, a, ids(t), t, Amount(a.usage, t), at);
            && !HasId(l.events + es, e.id)
            && e.idempotencyKey !in l.idempotencyIndex + (set x | x in es :: x.idempotencyKey)
  {
    hide EventsFor, KeyText;
    var es := EventsFor(q, a, ids, at, front);
    assert (front + [t])[|front|] == t && t in front + [t];
    forall x | x in es ensures x.id != ids(t) && x.idempotencyKey != KeyText(q.requestId, a.id, t, a.attemptNumber) {
      EventsForTypes(q, a, ids, at, front, x);
      var u :| u in front && x == EventOf(q, a, ids(u), u, Amount(a.usage, u), at);
      var i :| 0 <= i < |front| && front[i] == u;
      assert (front + [t])[i] == u;
      KeysDiffer(q, a, u, t);
    }
    forall i | 0 <= i < |l.events + es| ensures (l.events + es)[i].id != ids(t) {
      if i < |l.events| {
        assert !HasId(l.events, ids(t));
        assert (l.events + es)[i] == l.events[i];
      } else {
        assert (l.events + es)[i] in es;
      }
    }
  }

  function Max(n: int): int {
    if n > 0 then n else 0
  }

  lemma AppendOne(l: Ledger, e: UsageEvent, r: string, t: UsageType)
    ensures Ledgered(Appended(l, e), r, t)
         == Ledgered(l, r, t) + if !Duplicate(l, e) && e.requestId == r && e.usageType == t then e.quantity else 0
  {
    hide IntoBoth, Duplicate;
    SumConcat(LedgerShare(r, t), l.events, [e]);
    SumOne(LedgerShare(r, t), e);
  }

  /** Whether the ledger already holds an event of the attempt for one type of usage. */
  predicate Known(l: Ledger, q: Request, a: Attempt, t: UsageType) {
    KeyText(q.requestId, a.id, t, a.attemptNumber) in l.idempotencyIndex
  }

  /** Nothing of the other types is touched. */
  ghost predicate Untouched(l: Ledger, n: Ledger, q: Request, a: Attempt, ids: Ids, types: seq<UsageType>) {
    forall u :: IsToken(u) && u !in types ==> !HasId(n.events, ids(u)) && (Known(n, q, a, u) <==> Known(l, q, a, u))
  }

  /** What appending events of some types adds to the ledger: of each type that is not known yet, what
      was used. */
  ghost predicate TypesAdded(
    l: Ledger, n: Ledger, q: Request, a: Attempt, ids: Ids, types: seq<UsageType>, r: string, t: UsageType)
  {
    && Untouched(l, n, q, a, ids, types)
    && Ledgered(n, r, t)
       == Ledgered(l, r, t)
        + if r == q.requestId && t in types && !Known(l, q, a, t) then Max(Amount(a.usage, t)) else 0
  }

  lemma {:induction false} AppendSome(
    l: Ledger, q: Request, a: Attempt, ids: Ids, at: int, types: seq<UsageType>, r: string, t: UsageType)
    requires AllTokens(types) && Plain(q.requestId) && Plain(a.id) && FreshIds(l, ids) && IsToken(t)
    ensures TypesAdded(l, AppendedAll(l, EventsFor(q, a, ids, at, types)), q, a, ids, types, r, t)
  {
    if types == [] {
      hide Ledgered, HasId, Known;
    } else {
      hide Appended, TypesAdded, EventOf, FreshIds, IsToken, Plain;
      var front, u := types[..|types| - 1], types[|types| - 1];
      assert types == front + [u] && u !in front;
      AppendSome(l, q, a, ids, at, front, r, t);
      var es := EventsFor(q, a, ids, at, front);
      if Amount(a.usage, u) > 0 {
        var e := EventOf(q, a, ids(u), u, Amount(a.usage, u), at);
        assert EventsFor(q, a, ids, at, types) == es + [e];
        AppendedLast(l, es, e);
        AppendNext(l, AppendedAll(l, es), q, a, ids, at, front, u, r, t);
      } else {
        assert EventsFor(q, a, ids, at, types) == es + [] == es;
        SkipNext(l, AppendedAll(l, es), q, a, ids, front, u, r, t);
      }
    }
  }

  lemma SkipNext(
    l: Ledger, n: Ledger, q: Request, a: Attempt, ids: Ids, front: seq<UsageType>, u: UsageType,
    r: string, t: UsageType)
    requires TypesAdded(l, n, q, a, ids, front, r, t) && Amount(a.usage, u) <= 0
    ensures TypesAdded(l, n, q, a, ids, front + [u], r, t)
  {
    hide Ledgered, HasId, Known, IsToken;
  }

  lemma AppendNext(
    l: Ledger, n: Ledger, q: Request, a: Attempt, ids: Ids, at: int, front: seq<UsageType>, u: UsageType,
    r: string, t: UsageType)
    requires AllTokens(front + [u]) && u !in front && Plain(q.requestId) && Plain(a.id) && FreshIds(l, ids)
    requires TypesAdded(l, n, q, a, ids, front, r, t) && Amount(a.usage, u) > 0
    ensures TypesAdded(l, Appended(n, EventOf(q, a, ids(u), u, Amount(a.usage, u), at)), q, a, ids, front + [u], r, t)
  {
    hide Appended, KeyText, Ledgered, Known, Duplicate, Untouched, FreshIds, IsToken, Plain, AllTokens;
    AppendOne(n, EventOf(q, a, ids(u), u, Amount(a.usage, u), at), r, t);
    AppendUntouched(l, n, q, a, ids, at, front, u);
  }

  lemma AppendedLast(l: Ledger, es: seq<UsageEvent>, e: UsageEvent)
    ensures AppendedAll(l, es + [e]) == Appended(AppendedAll(l, es), e)
  {
    hide Appended;
    assert (es + [e])[..|es|] == es;
  }

  lemma AppendUntouched(
    l: Ledger, n: Ledger, q: Request, a: Attempt, ids: Ids, at: int, front: seq<UsageType>, u: UsageType)
    requires AllTokens(front + [u]) && u !in front && Plain(q.requestId) && Plain(a.id) && FreshIds(l, ids)
    requires Untouched(l, n, q, a, ids, front)
    ensures var e := EventOf(q, a, ids(u), u, Amount(a.usage, u), at);
            && (Duplicate(n, e) <==> Known(l, q, a, u))
            && Untouched(l, Appended(n, e), q, a, ids, front + [u])
  {
    hide KeyText, IntoBoth;
    var e := EventOf(q, a, ids(u), u, Amount(a.usage, u), at);
    assert u in front + [u];
    forall v | IsToken(v) && v !in front + [u]
      ensures !HasId(Appended(n, e).events, ids(v)) && (Known(Appended(n, e), q, a, v) <==> Known(l, q, a, v))
    {
      assert v !in front && v != u;
      KeysDiffer(q, a, u, v);
    }
  }

  lemma RecordedTypes()
    ensures AllTokens(RECORDED) && forall t :: IsToken(t) ==> t in RECORDED
  {
    assert RECORDED[0] == InputTokens && RECORDED[1] == OutputTokens && RECORDED[2] == TotalTokens;
    assert RECORDED[3] == CachedInputTokens && RECORDED[4] == ReasoningTokens;
  }

  lemma AttemptAdds(l: Ledger, q: Request, a: Attempt, ids: Ids, at: int, r: string, t: UsageType)
    requires Plain(q.requestId) && Plain(a.id) && FreshIds(l, ids) && IsToken(t)
    ensures Ledgered(AppendedAll(l, EventsOf(q, a, ids, at)), r, t)
         == Ledgered(l, r, t) + if r == q.requestId && !Known(l, q, a, t) then Max(Amount(a.usage, t)) else 0
  {
    hide AppendedAll, EventsFor, FreshIds, Known, Untouched;
    RecordedTypes();
    AppendSome(l, q, a, ids, at, RECORDED, r, t);
  }

  // ---------------------------------------------------------------- closing an attempt

  /** An attempt is closed for the first time: it is open, and its event ids are fresh. */
  ghost predicate FirstClose(w: World, id: string, ids: Ids) {
    HasAttempt(w.attempts, id) && w.attempts[IndexOf(w.attempts, id)].status == Started && FreshIds(w.ledger, ids)
  }

  lemma OpenIsUnrecorded(w: World, id: string, q: Request)
    requires Orderly(w) && HasAttempt(w.attempts, id) && w.attempts[IndexOf(w.attempts, id)].status == Started
    requires Plain(q.requestId)
    ensures forall a: Attempt :: a.id == id ==> Unrecorded(w.ledger, q, a)
  {
    hide KeyText, TypeName;
    var i := IndexOf(w.attempts, id);
    forall a: Attempt, t | a.id == id && IsToken(t)
      ensures KeyText(q.requestId, a.id, t, a.attemptNumber) !in w.ledger.idempotencyIndex
    {
      var key := KeyText(q.requestId, id, t, a.attemptNumber);
      KeyTextParts(q.requestId, id, t, a.attemptNumber);
      if KeyOfClosed(w, key) {
        var j, r, u, n :| 0 <= j < |w.attempts| && w.attempts[j].status != Started
          && Plain(r) && Plain(w.attempts[j].id) && key == KeyText(r, w.attempts[j].id, u, n);
        KeyTextParts(r, w.attempts[j].id, u, n);
      }
    }
  }

  /** The usage a first close records is right for the books: there is none, or it is not negative
      and booked to the attempt's own request, which has been started. */
  predicate Bookable(w: World, a: Attempt, requestId: string, u: Usage) {
    || (u.input == 0 && u.output == 0)
    || (u.input >= 0 && u.output >= 0 && requestId == a.requestId && requestId in w.requests)
  }

  /** What closing an attempt adds to the ledger of the request it is closed for. */
  function Booked(w: World, a: Attempt, requestId: string, u: Usage, always: bool, t: UsageType): int {
    if requestId !in w.requests || !(always || u.input > 0 || u.output > 0) then 0
    else if Known(w.ledger, w.requests[requestId], a, t) then 0
    else Max(Amount(u, t))
  }

  lemma CloseShares(
    w: World, id: string, requestId: string, status: AttemptStatus, u: Reported, always: bool, ids: Ids, at: int,
    r: string, t: UsageType, f: Attempt -> int)
    requires Orderly(w) && HasAttempt(w.attempts, id) && FreshIds(w.ledger, ids)
    requires (t == InputTokens && f == InputOf) || (t == OutputTokens && f == OutputOf)
    ensures var n := Close(w, id, requestId, status, u, always, ids, at);
            var a := w.attempts[IndexOf(w.attempts, id)];
            && SumBy(AttemptShare(r, f), n.attempts)
               == SumBy(AttemptShare(r, f), w.attempts)
                + (if r == a.requestId then Amount(UsageFrom(u), t) - Amount(a.usage, t) else 0)
            && Ledgered(n.ledger, r, t)
               == Ledgered(w.ledger, r, t)
                + if r == requestId then Booked(w, a, requestId, UsageFrom(u), always, t) else 0
  {
    hide AppendedAll, EventsOf, FreshIds, KeyOfClosed, Ledgered, KeyText;
    var i := IndexOf(w.attempts, id);
    var a := Closed(w.attempts[i], status, u);
    SumUpdate(AttemptShare(r, f), w.attempts, i, a);
    if requestId in w.requests {
      AttemptAdds(w.ledger, w.requests[requestId], a, ids, at, r, t);
    }
  }

  /** Of one type of usage, the ledger takes up what the attempt's record changes by. */
  predicate Balanced(w: World, a: Attempt, requestId: string, u: Usage, always: bool, t: UsageType) {
    var change, booked := Amount(u, t) - Amount(a.usage, t), Booked(w, a, requestId, u, always, t);
    if requestId == a.requestId then change == booked else change == 0 && booked == 0
  }

  /** Closing an attempt, for the first time or again, keeps the books exactly if the ledger takes up
      what the record changes by, of input and of output. */
  lemma CloseBalances(
    w: World, id: string, requestId: string, status: AttemptStatus, u: Reported, always: bool, ids: Ids, at: int)
    requires Orderly(w) && BooksAgree(w) && HasAttempt(w.attempts, id) && FreshIds(w.ledger, ids)
    ensures var a := w.attempts[IndexOf(w.attempts, id)];
            BooksAgree(Close(w, id, requestId, status, u, always, ids, at))
            <==> Balanced(w, a, requestId, UsageFrom(u), always, InputTokens)
                 && Balanced(w, a, requestId, UsageFrom(u), always, OutputTokens)
  {
    hide Close, Orderly, FreshIds, Ledgered, SumBy, AttemptShare, Booked;
    var n := Close(w, id, requestId, status, u, always, ids, at);
    var a, used := w.attempts[IndexOf(w.attempts, id)], UsageFrom(u);
    forall r
      ensures SumBy(AttemptShare(r, InputOf), n.attempts)
           == SumBy(AttemptShare(r, InputOf), w.attempts)
            + (if r == a.requestId then used.input - a.usage.input else 0)
      ensures SumBy(AttemptShare(r, OutputOf), n.attempts)
           == SumBy(AttemptShare(r, OutputOf), w.attempts)
            + (if r == a.requestId then used.output - a.usage.output else 0)
      ensures Ledgered(n.ledger, r, InputTokens)
           == Ledgered(w.ledger, r, InputTokens)
            + (if r == requestId then Booked(w, a, requestId, used, always, InputTokens) else 0)
      ensures Ledgered(n.ledger, r, OutputTokens)
           == Ledgered(w.ledger, r, OutputTokens)
            + (if r == requestId then Booked(w, a, requestId, used, always, OutputTokens) else 0)
    {
      CloseShares(w, id, requestId, status, u, always, ids, at, r, InputTokens, InputOf);
      CloseShares(w, id, requestId, status, u, always, ids, at, r, OutputTokens, OutputOf);
    }
    if BooksAgree(n) {
      assert Ledgered(n.ledger, a.requestId, InputTokens) == SumBy(AttemptShare(a.requestId, InputOf), n.attempts);
      assert Ledgered(n.ledger, a.requestId, OutputTokens) == SumBy(AttemptShare(a.requestId, OutputOf), n.attempts);
      assert Ledgered(n.ledger, requestId, InputTokens) == SumBy(AttemptShare(requestId, InputOf), n.attempts);
      assert Ledgered(n.ledger, requestId, OutputTokens) == SumBy(AttemptShare(requestId, OutputOf), n.attempts);
    }
  }

  lemma OpenIsUnknown(w: World, id: string, requestId: string, ids: Ids)
    requires Orderly(w) && FirstClose(w, id, ids) && requestId in w.requests
    ensures var a := w.attempts[IndexOf(w.attempts, id)];
            !Known(w.ledger, w.requests[requestId], a, InputTokens)
            && !Known(w.ledger, w.requests[requestId], a, OutputTokens)
  {
    hide KeyText, KeyOfClosed;
    OpenIsUnrecorded(w, id, w.requests[requestId]);
  }

  /** A first close keeps the books exactly when its usage is bookable. */
  lemma CloseKeepsBooksIff(
    w: World, id: string, requestId: string, status: AttemptStatus, u: Reported, always: bool, ids: Ids, at: int)
    requires Orderly(w) && BooksAgree(w) && FirstClose(w, id, ids)
    ensures BooksAgree(Close(w, id, requestId, status, u, always, ids, at))
       <==> Bookable(w, w.attempts[IndexOf(w.attempts, id)], requestId, UsageFrom(u))
  {
    hide Close, BooksAgree, FreshIds, Known, KeyOfClosed;
    CloseBalances(w, id, requestId, status, u, always, ids, at);
    if requestId in w.requests {
      OpenIsUnknown(w, id, requestId, ids);
    }
  }

  lemma CloseOrderly(
    w: World, id: string, requestId: string, status: AttemptStatus, u: Reported, always: bool, ids: Ids, at: int)
    requires Orderly(w) && FirstClose(w, id, ids) && status != Started
    ensures Orderly(Close(w, id, requestId, status, u, always, ids, at))
  {
    hide EventsFor, AppendedAll, KeyText, Ledgered, FreshIds, Unrecorded;
    var n := Close(w, id, requestId, status, u, always, ids, at);
    var i := IndexOf(w.attempts, id);
    var a := Closed(w.attempts[i], status, u);
    assert n.attempts == w.attempts[i := a];
    if requestId in w.requests {
      RecordedTypes();
      OpenIsUnrecorded(w, id, w.requests[requestId]);
      AppendTypes(w.ledger, w.requests[requestId], a, ids, at, RECORDED);
    }
    forall key | key in n.ledger.idempotencyIndex ensures KeyOfClosed(n, key) {
      if key in w.ledger.idempotencyIndex {
        assert KeyOfClosed(w, key);
        KeyStaysClosed(w, n, i, key);
      } else {
        var q := w.requests[requestId];
        var e :| e in EventsFor(q, a, ids, at, RECORDED) && e.idempotencyKey == key;
        EventsForTypes(q, a, ids, at, RECORDED, e);
        assert n.attempts[i] == a;
      }
    }
  }

  lemma KeyStaysClosed(w: World, n: World, i: nat, key: string)
    requires i < |w.attempts| == |n.attempts| && w.attempts[i].status == Started
    requires forall j :: 0 <= j < |w.attempts| && j != i ==> n.attempts[j] == w.attempts[j]
    requires KeyOfClosed(w, key)
    ensures KeyOfClosed(n, key)
  {
    hide KeyText;
    var j, r, u, m :| 0 <= j < |w.attempts| && w.attempts[j].status != Started
      && Plain(r) && Plain(w.attempts[j].id) && key == KeyText(r, w.attempts[j].id, u, m);
    assert n.attempts[j] == w.attempts[j];
  }

  // ---------------------------------------------------------------- whole runs

  ghost predicate CloseAdmissible(w: World, id: string, requestId: string, u: Reported, ids: Ids) {
    HasAttempt(w.attempts, id) ==>
      && FirstClose(w, id, ids)
      && Bookable(w, w.attempts[IndexOf(w.attempts, id)], requestId, UsageFrom(u))
  }

  /** Each attempt is started once and closed once, with usage its started request can be charged for. */
  ghost predicate Admissible(w: World, o: Operation) {
    match o
    case StartRequest(q) => Plain(q.requestId)
    case StartAttempt(id, _, _, _) => Plain(id) && !HasAttempt(w.attempts, id)
    case CompleteAttempt(id, requestId, u, ids, _) => CloseAdmissible(w, id, requestId, u, ids)
    case FailAttempt(id, requestId, u, ids, _) => CloseAdmissible(w, id, requestId, u.GetOr(NotReported()), ids)
    case CancelAttempt(id, requestId, u, ids, _) => CloseAdmissible(w, id, requestId, u.GetOr(NotReported()), ids)
    case CompleteRequest(_, _, _) => true
  }

  ghost predicate AdmissibleRun(operations: seq<Operation>) {
    operations == [] ||
    (AdmissibleRun(operations[..|operations| - 1])
     && Admissible(Run(operations[..|operations| - 1]), operations[|operations| - 1]))
  }

  lemma CloseKeeps(
    w: World, id: string, requestId: string, status: AttemptStatus, u: Reported, always: bool, ids: Ids, at: int)
    requires Orderly(w) && BooksAgree(w) && status != Started && CloseAdmissible(w, id, requestId, u, ids)
    ensures var n := Close(w, id, requestId, status, u, always, ids, at); Orderly(n) && BooksAgree(n)
  {
    hide Orderly, BooksAgree, FirstClose, Bookable;
    if HasAttempt(w.attempts, id) {
      CloseOrderly(w, id, requestId, status, u, always, ids, at);
      CloseKeepsBooksIff(w, id, requestId, status, u, always, ids, at);
    } else {
      assert Close(w, id, requestId, status, u, always, ids, at) == w;
    }
  }

  lemma NoShare(r: string, a: Attempt)
    requires a.usage == NoUsage()
    ensures AttemptShare(r, InputOf)(a) == 0 && AttemptShare(r, OutputOf)(a) == 0
  {
    assert InputOf(a) == 0 && OutputOf(a) == 0;
  }

  lemma StartKeeps(w: World, id: string, requestId: string, n: int, provider: string)
    requires Orderly(w) && BooksAgree(w) && Plain(id) && !HasAttempt(w.attempts, id)
    ensures var m := Step(w, StartAttempt(id, requestId, n, provider)); Orderly(m) && BooksAgree(m)
  {
    hide Ledgered, KeyText, SumBy, AttemptShare;
    var a := Attempt(id, requestId, n, provider, Started, Unavailable, NoUsage());
    var m := Step(w, StartAttempt(id, requestId, n, provider));
    assert m.attempts == w.attempts + [a];
    forall r
      ensures SumBy(AttemptShare(r, InputOf), m.attempts) == SumBy(AttemptShare(r, InputOf), w.attempts)
      ensures SumBy(AttemptShare(r, OutputOf), m.attempts) == SumBy(AttemptShare(r, OutputOf), w.attempts)
    {
      OpenShare(w.attempts, a, r);
    }
    KeysStayClosed(w, a);
    hide KeyOfClosed;
  }

  lemma OpenShare(attempts: seq<Attempt>, a: Attempt, r: string)
    requires a.usage == NoUsage()
    ensures SumBy(AttemptShare(r, InputOf), attempts + [a]) == SumBy(AttemptShare(r, InputOf), attempts)
    ensures SumBy(AttemptShare(r, OutputOf), attempts + [a]) == SumBy(AttemptShare(r, OutputOf), attempts)
  {
    SumConcat(AttemptShare(r, InputOf), attempts, [a]);
    SumConcat(AttemptShare(r, OutputOf), attempts, [a]);
    SumOne(AttemptShare(r, InputOf), a);
    SumOne(AttemptShare(r, OutputOf), a);
    NoShare(r, a);
  }

  lemma KeysStayClosed(w: World, a: Attempt)
    ensures forall key :: KeyOfClosed(w, key) ==> KeyOfClosed(w.(attempts := w.attempts + [a]), key)
  {
    hide KeyText;
    var m := w.(attempts := w.attempts + [a]);
    forall key | KeyOfClosed(w, key) ensures KeyOfClosed(m, key) {
      var j, r, u, k :| 0 <= j < |w.attempts| && w.attempts[j].status != Started
        && Plain(r) && Plain(w.attempts[j].id) && key == KeyText(r, w.attempts[j].id, u, k);
      assert m.attempts[j] == w.attempts[j];
    }
  }

  lemma RequestsKeep(w: World, requests: map<string, Request>)
    requires Orderly(w) && BooksAgree(w)
    requires forall r :: r in requests ==> requests[r].requestId == r && Plain(r)
    ensures Orderly(w.(requests := requests)) && BooksAgree(w.(requests := requests))
  {
    hide Ledgered, KeyText;
    var n := w.(requests := requests);
    forall key | key in n.ledger.idempotencyIndex ensures KeyOfClosed(n, key) {
      assert KeyOfClosed(w, key);
    }
  }

  lemma RequestsPlain(w: World, r: string)
    requires Orderly(w)
    ensures forall x :: x in w.requests ==> w.requests[x].requestId == x && Plain(x)
  {
  }

  lemma StepKeeps(w: World, o: Operation)
    requires Orderly(w) && BooksAgree(w) && Admissible(w, o)
    ensures Orderly(Step(w, o)) && BooksAgree(Step(w, o))
  {
    hide Orderly, BooksAgree, Close, CloseAdmissible, AttemptsOf, QualityOf, Consumed, FinalAttempt, Retries, Fallbacks;
    RequestsPlain(w, "");
    match o
    case StartRequest(q) => RequestsKeep(w, Step(w, o).requests);
    case StartAttempt(id, requestId, n, provider) => StartKeeps(w, id, requestId, n, provider);
    case CompleteAttempt(id, requestId, u, ids, at) => CloseKeeps(w, id, requestId, Completed, u, true, ids, at);
    case FailAttempt(id, requestId, u, ids, at) =>
      CloseKeeps(w, id, requestId, Failed, u.GetOr(NotReported()), false, ids, at);
    case CancelAttempt(id, requestId, u, ids, at) =>
      CloseKeeps(w, id, requestId, Cancelled, u.GetOr(NotReported()), false, ids, at);
    case CompleteRequest(requestId, status, finalAttemptId) => RequestsKeep(w, Step(w, o).requests);
  }

  lemma {:induction false} RunKeepsBooks(operations: seq<Operation>)
    requires AdmissibleRun(operations)
    ensures Orderly(Run(operations)) && BooksAgree(Run(operations))
  {
    hide Step, Orderly, BooksAgree, Admissible;
    if operations == [] {
      NothingBooked();
    } else {
      RunKeepsBooks(operations[..|operations| - 1]);
      StepKeeps(Run(operations[..|operations| - 1]), operations[|operations| - 1]);
    }
  }

  lemma NothingBooked()
    ensures Orderly(Run([])) && BooksAgree(Run([]))
  {
  }

  lemma {:induction false} BelongingSum(attempts: seq<Attempt>, r: string, f: Attempt -> int)
    ensures SumBy(f, Belonging(attempts, r)) == SumBy(AttemptShare(r, f), attempts)
  {
    if attempts != [] {
      BelongingSum(attempts[1..], r, f);
      SumHead(AttemptShare(r, f), attempts);
      if attempts[0].requestId == r {
        SumConcat(f, [attempts[0]], Belonging(attempts[1..], r));
        SumOne(f, attempts[0]);
      } else {
        assert Belonging(attempts, r) == [] + Belonging(attempts[1..], r) == Belonging(attempts[1..], r);
      }
    }
  }

  lemma ConsumedIsSum(attempts: seq<Attempt>, r: string)
    ensures Consumed(AttemptsOf(attempts, r)).input == SumBy(AttemptShare(r, InputOf), attempts)
    ensures Consumed(AttemptsOf(attempts, r)).output == SumBy(AttemptShare(r, OutputOf), attempts)
    ensures |AttemptsOf(attempts, r)| == |Belonging(attempts, r)|
  {
    var b := Belonging(attempts, r);
    SumRearranged(InputOf, AttemptsOf(attempts, r), b);
    SumRearranged(OutputOf, AttemptsOf(attempts, r), b);
    BelongingSum(attempts, r, InputOf);
    BelongingSum(attempts, r, OutputOf);
    assert |multiset(AttemptsOf(attempts, r))| == |multiset(b)|;
  }

  /** After any admissible run, finishing a request computes a provider consumption that is what the
      ledger holds of input and of output for it, and counts every attempt but the first as a retry
      or a fallback. */
  lemma ConsumptionMatchesLedger(
    operations: seq<Operation>, requestId: string, status: string, finalAttemptId: Option<string>)
    requires AdmissibleRun(operations) && requestId in Run(operations).requests
    ensures var w := Step(Run(operations), CompleteRequest(requestId, status, finalAttemptId));
            var q := w.requests[requestId];
            && q.consumption.input == Ledgered(w.ledger, requestId, InputTokens)
            && q.consumption.output == Ledgered(w.ledger, requestId, OutputTokens)
            && q.consumption.total == q.consumption.input + q.consumption.output
            && q.attemptCount == |Belonging(w.attempts, requestId)|
            && q.retryCount + q.fallbackCount == if q.attemptCount == 0 then 0 else q.attemptCount - 1
  {
    hide Run, AttemptsOf, QualityOf, FinalAttempt, Ledgered, Orderly, Belonging;
    RunKeepsBooks(operations);
    var w := Run(operations);
    ConsumedIsSum(w.attempts, requestId);
    RetriesAndFallbacks(AttemptsOf(w.attempts, requestId));
  }

  // ---------------------------------------------------------------- closing twice

  /** Closing an attempt again, for its own request. If its input and output are in the ledger, the
      books agree afterwards exactly if neither has changed: the record is overwritten, but the
      ledger takes the new events for repetitions. If it was closed without usage, so that nothing is
      in the ledger, it can be closed again like for the first time. */
  lemma ClosingAgain(
    w: World, id: string, requestId: string, status: AttemptStatus, u: Reported, always: bool, ids: Ids, at: int)
    requires Orderly(w) && BooksAgree(w) && HasAttempt(w.attempts, id) && FreshIds(w.ledger, ids)
    requires requestId in w.requests && requestId == w.attempts[IndexOf(w.attempts, id)].requestId
    ensures var a, used := w.attempts[IndexOf(w.attempts, id)], UsageFrom(u);
            var q := w.requests[requestId];
            var kept := BooksAgree(Close(w, id, requestId, status, u, always, ids, at));
            && (Known(w.ledger, q, a, InputTokens) && Known(w.ledger, q, a, OutputTokens) ==>
                  (kept <==> used.input == a.usage.input && used.output == a.usage.output))
            && (a.usage.input == 0 && a.usage.output == 0
                && !Known(w.ledger, q, a, InputTokens) && !Known(w.ledger, q, a, OutputTokens) ==>
                  (kept <==> Bookable(w, a, requestId, used)))
  {
    hide Close, BooksAgree, FreshIds, Known, Orderly;
    CloseBalances(w, id, requestId, status, u, always, ids, at);
  }

  lemma CloseKnows(
    w: World, id: string, requestId: string, status: AttemptStatus, u: Reported, ids: Ids, at: int)
    requires Orderly(w) && FirstClose(w, id, ids) && requestId in w.requests && UsageFrom(u).input > 0
    ensures var n := Close(w, id, requestId, status, u, true, ids, at);
            && HasAttempt(n.attempts, id) && IndexOf(n.attempts, id) == IndexOf(w.attempts, id)
            && n.attempts[IndexOf(n.attempts, id)] == Closed(w.attempts[IndexOf(w.attempts, id)], status, u)
            && n.requests == w.requests
            && Known(n.ledger, w.requests[requestId], n.attempts[IndexOf(n.attempts, id)], InputTokens)
  {
    hide KeyText, FreshIds, Unrecorded, AppendedAll;
    var i, q := IndexOf(w.attempts, id), w.requests[requestId];
    var a := Closed(w.attempts[i], status, u);
    var n := Close(w, id, requestId, status, u, true, ids, at);
    assert n.attempts == w.attempts[i := a] && n.attempts[i].id == id;
    RecordedTypes();
    OpenIsUnrecorded(w, id, q);
    AppendTypes(w.ledger, q, a, ids, at, RECORDED);
    hide EventsFor;
    InputIsFirst(q, a, ids, at);
    assert EventOf(q, a, ids(InputTokens), InputTokens, a.usage.input, at) in EventsOf(q, a, ids, at);
    SameIndex(n.attempts, id, i);
  }

  lemma SameIndex(attempts: seq<Attempt>, id: string, i: nat)
    requires i < |attempts| && attempts[i].id == id
    requires forall j, k :: 0 <= j < k < |attempts| ==> attempts[j].id != attempts[k].id
    ensures HasAttempt(attempts, id) && IndexOf(attempts, id) == i
  {
  }

  lemma {:induction false} KeepsFirst(q: Request, a: Attempt, ids: Ids, at: int, types: seq<UsageType>)
    requires types != [] && Amount(a.usage, types[0]) > 0
    ensures var e := EventOf(q, a, ids(types[0]), types[0], Amount(a.usage, types[0]), at);
            e in EventsFor(q, a, ids, at, types)
  {
    hide KeyText;
    if |types| > 1 {
      KeepsFirst(q, a, ids, at, types[..|types| - 1]);
    }
  }

  lemma InputIsFirst(q: Request, a: Attempt, ids: Ids, at: int)
    requires a.usage.input > 0
    ensures EventOf(q, a, ids(InputTokens), InputTokens, a.usage.input, at) in EventsOf(q, a, ids, at)
  {
    hide EventsFor, KeyText;
    KeepsFirst(q, a, ids, at, RECORDED);
  }

  /** An attempt that is completed twice, with different input: the books part. */
  lemma CompletingTwice(
    w: World, id: string, requestId: string, u: Reported, v: Reported, ids: Ids, more: Ids, at: int)
    requires Orderly(w) && BooksAgree(w) && FirstClose(w, id, ids)
    requires requestId in w.requests && requestId == w.attempts[IndexOf(w.attempts, id)].requestId
    requires 0 < UsageFrom(u).input != UsageFrom(v).input && UsageFrom(u).output >= 0
    requires FreshIds(Step(w, CompleteAttempt(id, requestId, u, ids, at)).ledger, more)
    ensures var once := Step(w, CompleteAttempt(id, requestId, u, ids, at));
            BooksAgree(once) && !BooksAgree(Step(once, CompleteAttempt(id, requestId, v, more, at)))
  {
    hide Close, BooksAgree, FreshIds, Known, Orderly, IndexOf;
    var once := Step(w, CompleteAttempt(id, requestId, u, ids, at));
    CloseKeepsBooksIff(w, id, requestId, Completed, u, true, ids, at);
    CloseOrderly(w, id, requestId, Completed, u, true, ids, at);
    CloseKnows(w, id, requestId, Completed, u, ids, at);
    CloseBalances(once, id, requestId, Completed, v, true, more, at);
  }

  const FIVE := Reported(Some(5), Some(0), None, None, None, ProviderReported)
  const SEVEN := Reported(Some(7), Some(0), None, None, None, ProviderReported)
  const SOME_REQUEST := Opening("r", "org", "ws", None, "model")

  const SOME_ATTEMPT := StartAttempt("a", "r", 1, "provider")

  /** Ids of events that share a prefix. */
  function Named(prefix: char): Ids {
    (t: UsageType) => [prefix] + TypeName(t)
  }

  lemma NamedDiffer(prefix: char, t: UsageType, u: UsageType)
    requires IsToken(t) && IsToken(u) && t != u
    ensures Named(prefix)(t) != Named(prefix)(u)
  {
    hide TypeName;
    TypeNamesDiffer(t, u);
    assert Named(prefix)(t)[1..] == TypeName(t) && Named(prefix)(u)[1..] == TypeName(u);
  }

  lemma FreshNames(l: Ledger, prefix: char)
    requires forall i :: 0 <= i < |l.events| ==> l.events[i].id != [] && l.events[i].id[0] != prefix
    ensures FreshIds(l, Named(prefix))
  {
    hide TypeName;
    forall t, u | IsToken(t) && IsToken(u) && t != u ensures Named(prefix)(t) != Named(prefix)(u) {
      NamedDiffer(prefix, t, u);
    }
    forall t ensures Named(prefix)(t)[0] == prefix {
    }
  }

  lemma RunSnoc(operations: seq<Operation>, o: Operation)
    ensures Run(operations + [o]) == Step(Run(operations), o)
  {
    hide Step;
    assert (operations + [o])[..|operations|] == operations;
  }

  lemma NothingRun()
    ensures Run([]) == World(map[], [], Ledger([], {}, map[]))
  {
  }

  /** A request and an attempt of it have started, and nothing else has happened. */
  lemma Beginning() returns (w: World)
    ensures w == Run([StartRequest(SOME_REQUEST), SOME_ATTEMPT])
    ensures Orderly(w) && BooksAgree(w) && w.ledger.events == []
    ensures "r" in w.requests && HasAttempt(w.attempts, "a")
    ensures var a := w.attempts[IndexOf(w.attempts, "a")]; a.requestId == "r" && a.status == Started
  {
    hide Orderly, BooksAgree, Run;
    var open, attempt := StartRequest(SOME_REQUEST), SOME_ATTEMPT;
    NothingBooked();
    NothingRun();
    RunSnoc([], open);
    assert [] + [open] == [open];
    StepKeeps(Run([]), open);
    RunSnoc([open], attempt);
    assert [open] + [attempt] == [open, attempt];
    StepKeeps(Run([open]), attempt);
    w := Run([open, attempt]);
    assert w.attempts[0].id == "a";
  }

  /** The shortest such run: a request and an attempt start, the attempt completes with 5, and
      completes again with 7. */
  lemma CompletedTwice()
    ensures var first := CompleteAttempt("a", "r", FIVE, Named('x'), 0);
            var again := CompleteAttempt("a", "r", SEVEN, Named('y'), 0);
            var start := [StartRequest(SOME_REQUEST), SOME_ATTEMPT];
            BooksAgree(Run(start + [first])) && !BooksAgree(Run(start + [first] + [again]))
  {
    hide Run, Step, Orderly, BooksAgree, FreshIds, IndexOf, HasAttempt;
    var w := Beginning();
    var first := CompleteAttempt("a", "r", FIVE, Named('x'), 0);
    var again := CompleteAttempt("a", "r", SEVEN, Named('y'), 0);
    var start := [StartRequest(SOME_REQUEST), SOME_ATTEMPT];
    RunSnoc(start, first);
    RunSnoc(start + [first], again);
    FreshNames(w.ledger, 'x');
    OnceFresh(w);
    CompletingTwice(w, "a", "r", FIVE, SEVEN, Named('x'), Named('y'), 0);
  }

  lemma OnceFresh(w: World)
    requires Orderly(w) && FirstClose(w, "a", Named('x')) && "r" in w.requests && w.ledger.events == []
    ensures FreshIds(Step(w, CompleteAttempt("a", "r", FIVE, Named('x'), 0)).ledger, Named('y'))
  {
    hide KeyText, EventsFor, AppendedAll, FreshIds, Unrecorded, KeyOfClosed, TypeName;
    var q := w.requests["r"];
    var a := Closed(w.attempts[IndexOf(w.attempts, "a")], Completed, FIVE);
    RecordedTypes();
    OpenIsUnrecorded(w, "a", q);
    AppendTypes(w.ledger, q, a, Named('x'), 0, RECORDED);
    var es := EventsFor(q, a, Named('x'), 0, RECORDED);
    forall i | 0 <= i < |es| ensures es[i].id != [] && es[i].id[0] != 'y' {
      EventsForTypes(q, a, Named('x'), 0, RECORDED, es[i]);
    }
    assert [] + es == es;
    FreshNames(Step(w, CompleteAttempt("a", "r", FIVE, Named('x'), 0)).ledger, 'y');
  }

  /** An attempt that completes although its request was not started is not in the books. */
  lemma UnstartedRequest()
    ensures !BooksAgree(Run([SOME_ATTEMPT] + [CompleteAttempt("a", "r", FIVE, Named('x'), 0)]))
  {
    hide Step, Orderly, BooksAgree, FreshIds, Run;
    var close := CompleteAttempt("a", "r", FIVE, Named('x'), 0);
    NothingBooked();
    NothingRun();
    RunSnoc([], SOME_ATTEMPT);
    assert [] + [SOME_ATTEMPT] == [SOME_ATTEMPT];
    StepKeeps(Run([]), SOME_ATTEMPT);
    var w := Run([SOME_ATTEMPT]);
    Attempted(w);
    RunSnoc([SOME_ATTEMPT], close);
    FreshNames(w.ledger, 'x');
    CloseKeepsBooksIff(w, "a", "r", Completed, FIVE, true, Named('x'), 0);
    ClosedAs(w, close);
  }

  lemma Attempted(w: World)
    requires w == Step(World(map[], [], Ledger([], {}, map[])), SOME_ATTEMPT)
    ensures Admissible(World(map[], [], Ledger([], {}, map[])), SOME_ATTEMPT)
    ensures w.requests == map[] && w.ledger.events == [] && HasAttempt(w.attempts, "a")
    ensures w.attempts[IndexOf(w.attempts, "a")].status == Started
  {
    assert w.attempts[0].id == "a";
  }

  lemma ClosedAs(w: World, o: Operation)
    requires o == CompleteAttempt("a", "r", FIVE, Named('x'), 0)
    ensures Step(w, o) == Close(w, "a", "r", Completed, FIVE, true, Named('x'), 0)
  {
  }

  // ---------------------------------------------------------------- reconciliation

  datatype MeteringError = RequestNotFound | AttemptNotFound | ReasonMissing

  /** The provider an adjustment is booked to. */
  function AdjustmentProvider(w: World, q: Request): Option<string> {
    if q.finalAttemptId.Some? && q.finalAttemptId.value != "" then
      if HasAttempt(w.attempts, q.finalAttemptId.value) then
        Some(w.attempts[IndexOf(w.attempts, q.finalAttemptId.value)].providerId)
      else None
    else
      var s := AttemptsOf(w.attempts, q.requestId);
      if s == [] then None else Some(s[0].providerId)
  }

  function Adjustment(w: World, q: Request, id: string, t: UsageType, difference: int, now: nat): UsageEvent {
    UsageEvent(id, "adj:" + q.requestId + ":" + TypeName(t) + ":" + PrintInt(difference) + ":" + PrintNat(now),
               q.requestId, q.finalAttemptId, q.organizationId, q.workspaceId, q.apiKeyId, q.canonicalModelId,
               AdjustmentProvider(w, q), t, difference, now)
  }

  function Adjusted(w: World, q: Request, id: string, t: UsageType, difference: int, now: nat): Ledger {
    if difference == 0 then w.ledger else Appended(w.ledger, Adjustment(w, q, id, t, difference, now))
  }

  /** Actual counts replace the logical ones, and the differences are booked. A reason that is given
      but blank is refused as soon as there is a difference to book. */
  function Reconcile(
    w: World, requestId: string, input: int, output: int, reason: Option<string>, ids: Ids, now: nat)
    : Result<World, MeteringError>
  {
    if requestId !in w.requests then Failure(RequestNotFound)
    else
      var q := w.requests[requestId];
      var di, dO := input - q.logical.input, output - q.logical.output;
      if (di != 0 || dO != 0) && reason.Some? && Trim(reason.value) == "" then Failure(ReasonMissing)
      else
        var w1 := w.(ledger := Adjusted(w, q, ids(InputTokens), InputTokens, di, now));
        var w2 := w1.(ledger := Adjusted(w1, q, ids(OutputTokens), OutputTokens, dO, now));
        Success(w2.(requests := w2.requests[requestId :=
          q.(meteringStatus := ReconciledStatus,
             logical := q.logical.(input := input, output := output, total := input + output))]))
  }

  lemma AdjustedAdds(w: World, q: Request, id: string, t: UsageType, difference: int, now: nat, u: UsageType)
    ensures Ledgered(Adjusted(w, q, id, t, difference, now), q.requestId, u)
         == Ledgered(w.ledger, q.requestId, u)
            + if t == u && !Duplicate(w.ledger, Adjustment(w, q, id, t, difference, now)) then difference else 0
  {
    hide IntoBoth, AdjustmentProvider, TypeName, PrintInt;
    if difference != 0 {
      var e := Adjustment(w, q, id, t, difference, now);
      SumConcat(LedgerShare(q.requestId, u), w.ledger.events, [e]);
      SumOne(LedgerShare(q.requestId, u), e);
    }
  }

  /** Reconciling moves the ledger and the logical usage by the same amount, each of input and output,
      exactly if the adjustment is not taken for a repetition: one with the same difference booked in
      the same millisecond is dropped, while the logical usage changes all the same. */
  lemma ReconcileConserves(
    w: World, requestId: string, input: int, output: int, reason: Option<string>, ids: Ids, now: nat)
    requires requestId in w.requests && w.requests[requestId].requestId == requestId
    requires Reconcile(w, requestId, input, output, reason, ids, now).Success?
    ensures var n := Reconcile(w, requestId, input, output, reason, ids, now).value;
            var q := w.requests[requestId];
            var di := input - q.logical.input;
            Ledgered(n.ledger, requestId, InputTokens) - n.requests[requestId].logical.input
            == Ledgered(w.ledger, requestId, InputTokens) - q.logical.input
            <==> di == 0 || !Duplicate(w.ledger, Adjustment(w, q, ids(InputTokens), InputTokens, di, now))
    ensures var n := Reconcile(w, requestId, input, output, reason, ids, now).value;
            var q := w.requests[requestId];
            var w1 := w.(ledger := Adjusted(w, q, ids(InputTokens), InputTokens, input - q.logical.input, now));
            var dO := output - q.logical.output;
            Ledgered(n.ledger, requestId, OutputTokens) - n.requests[requestId].logical.output
            == Ledgered(w.ledger, requestId, OutputTokens) - q.logical.output
            <==> dO == 0 || !Duplicate(w1.ledger, Adjustment(w1, q, ids(OutputTokens), OutputTokens, dO, now))
  {
    hide Ledgered, Adjustment, Adjusted, Duplicate;
    var q := w.requests[requestId];
    var di, dO := input - q.logical.input, output - q.logical.output;
    var w1 := w.(ledger := Adjusted(w, q, ids(InputTokens), InputTokens, di, now));
    AdjustedAdds(w, q, ids(InputTokens), InputTokens, di, now, InputTokens);
    AdjustedAdds(w, q, ids(InputTokens), InputTokens, di, now, OutputTokens);
    AdjustedAdds(w1, q, ids(OutputTokens), OutputTokens, dO, now, InputTokens);
    AdjustedAdds(w1, q, ids(OutputTokens), OutputTokens, dO, now, OutputTokens);
  }

  lemma BookedKey(w: World, q: Request, id: string, t: UsageType, difference: int, now: nat)
    requires difference != 0
    ensures Adjustment(w, q, id, t, difference, now).idempotencyKey
            in Adjusted(w, q, id, t, difference, now).idempotencyIndex
         || HasId(w.ledger.events, id)
  {
    hide IntoBoth, AdjustmentProvider, TypeName, PrintInt, PrintNat;
  }

  /** Two corrections of the input by the same difference in one millisecond: the second one changes the
      logical usage, but not the ledger. */
  lemma ReconcilingTwice(w: World, requestId: string, d: int, ids: Ids, more: Ids, now: nat)
    requires requestId in w.requests && w.requests[requestId].requestId == requestId && d != 0
    requires var q := w.requests[requestId];
             !Duplicate(w.ledger, Adjustment(w, q, ids(InputTokens), InputTokens, d, now))
    ensures var x, y := w.requests[requestId].logical.input, w.requests[requestId].logical.output;
            var once := Reconcile(w, requestId, x + d, y, None, ids, now);
            && once.Success?
            && var twice := Reconcile(once.value, requestId, x + d + d, y, None, more, now);
            && twice.Success?
            && Ledgered(twice.value.ledger, requestId, InputTokens) == Ledgered(w.ledger, requestId, InputTokens) + d
            && twice.value.requests[requestId].logical.input == x + d + d
  {
    hide Adjusted, AdjustmentProvider, Ledgered, TypeName, PrintInt, PrintNat;
    var q := w.requests[requestId];
    var x, y := q.logical.input, q.logical.output;
    AdjustedAdds(w, q, ids(InputTokens), InputTokens, d, now, InputTokens);
    BookedKey(w, q, ids(InputTokens), InputTokens, d, now);
    var once := Reconcile(w, requestId, x + d, y, None, ids, now).value;
    NothingAdjusted(w.(ledger := Adjusted(w, q, ids(InputTokens), InputTokens, d, now)), q, ids(OutputTokens), now);
    var p := once.requests[requestId];
    AdjustedAdds(once, p, more(InputTokens), InputTokens, d, now, InputTokens);
    var again := once.(ledger := Adjusted(once, p, more(InputTokens), InputTokens, d, now));
    NothingAdjusted(again, p, more(OutputTokens), now);
  }

  lemma NothingAdjusted(w: World, q: Request, id: string, now: nat)
    ensures Adjusted(w, q, id, OutputTokens, 0, now) == w.ledger
  {
  }

  /** Such a request: it has started, and is corrected to 5 and then to 10. */
  lemma ReconciledTwice(now: nat)
    ensures var w := Run([StartRequest(SOME_REQUEST)]);
            && "r" in w.requests
            && var once := Reconcile(w, "r", 5, 0, None, Named('x'), now);
            && once.Success?
            && var twice := Reconcile(once.value, "r", 10, 0, None, Named('y'), now);
            && twice.Success?
            && Ledgered(twice.value.ledger, "r", InputTokens) == 5
            && twice.value.requests["r"].logical.input == 10
  {
    hide Reconcile, Run, Adjustment;
    NothingRun();
    RunSnoc([], StartRequest(SOME_REQUEST));
    assert [] + [StartRequest(SOME_REQUEST)] == [StartRequest(SOME_REQUEST)];
    var w := Run([StartRequest(SOME_REQUEST)]);
    assert Ledgered(w.ledger, "r", InputTokens) == 0;
    ReconcilingTwice(w, "r", 5, Named('x'), Named('y'), now);
  }

  // ---------------------------------------------------------------- the service object

  class UsageMeteringService {
    var requests: map<string, Request>
    var attempts: seq<Attempt>
    const ledger: InMemoryUsageLedgerRepository

    function State(): World
      reads this, ledger
    {
      World(requests, attempts, ledger.Contents())
    }

    constructor (ledger: InMemoryUsageLedgerRepository)
      ensures this.ledger == ledger && requests == map[] && attempts == []
    {
      this.ledger := ledger;
      requests, attempts := map[], [];
    }

    method RecordRequestStarted(
      requestId: string, organizationId: string, workspaceId: string, apiKeyId: Option<string>,
      canonicalModelId: string) returns (r: Request)
      modifies this`requests
      ensures State() == Step(old(State()), StartRequest(
                Opening(requestId, organizationId, workspaceId, apiKeyId, canonicalModelId)))
      ensures requestId in requests && r == requests[requestId]
      ensures if requestId in old(requests) then r == old(requests)[requestId]
              else r.meteringStatus == Pending && r.attemptCount == 0 && r.logical == NoUsage()
    {
      if requestId in requests {
        return requests[requestId];
      }
      r := Request(requestId, organizationId, workspaceId, apiKeyId, canonicalModelId, "executing", None, 0, 0, 0,
                   Pending, QualityReported, NoUsage(), Consumption(0, 0, 0, None, None, 0, 0));
      requests := requests[requestId := r];
    }

    method RecordAttemptStarted(id: string, requestId: string, attemptNumber: int, providerId: string)
      modifies this`attempts
      ensures State() == Step(old(State()), StartAttempt(id, requestId, attemptNumber, providerId))
    {
      var record := Attempt(id, requestId, attemptNumber, providerId, Started, Unavailable, NoUsage());
      attempts := Saved(attempts, record);
    }

    method AppendAttemptUsageEvents(q: Request, a: Attempt, ids: Ids, at: int)
      modifies ledger
      ensures ledger.Contents() == AppendedAll(old(ledger.Contents()), EventsOf(q, a, ids, at))
    {
      var batch: seq<UsageEvent> := [];
      for i := 0 to |RECORDED|
        invariant batch == EventsFor(q, a, ids, at, RECORDED[..i])
        invariant ledger.Contents() == old(ledger.Contents())
      {
        assert RECORDED[..i + 1][..i] == RECORDED[..i];
        var t := RECORDED[i];
        if Amount(a.usage, t) > 0 {
          batch := batch + [EventOf(q, a, ids(t), t, Amount(a.usage, t), at)];
        }
      }
      assert RECORDED[..|RECORDED|] == RECORDED;
      var appended, duplicates := ledger.AppendUsageEventsBatch(batch);
    }

    method RecordAttemptCompleted(attemptId: string, requestId: string, usage: Reported, ids: Ids, at: int)
      returns (r: Result<Attempt, MeteringError>)
      modifies this`attempts, ledger
      ensures r.Failure? <==> !HasAttempt(old(attempts), attemptId)
      ensures State() == Step(old(State()), CompleteAttempt(attemptId, requestId, usage, ids, at))
    {
      hide EventsFor, AppendedAll;
      if !(exists i :: 0 <= i < |attempts| && attempts[i].id == attemptId) {
        return Failure(AttemptNotFound);
      }
      var updated := Closed(attempts[IndexOf(attempts, attemptId)], Completed, usage);
      attempts := Saved(attempts, updated);
      if requestId in requests {
        AppendAttemptUsageEvents(requests[requestId], updated, ids, at);
      }
      return Success(updated);
    }

    method RecordAttemptFailed(attemptId: string, requestId: string, usage: Option<Reported>, ids: Ids, at: int)
      returns (r: Result<Attempt, MeteringError>)
      modifies this`attempts, ledger
      ensures r.Failure? <==> !HasAttempt(old(attempts), attemptId)
      ensures State() == Step(old(State()), FailAttempt(attemptId, requestId, usage, ids, at))
    {
      hide EventsFor, AppendedAll;
      if !(exists i :: 0 <= i < |attempts| && attempts[i].id == attemptId) {
        return Failure(AttemptNotFound);
      }
      var updated := Closed(attempts[IndexOf(attempts, attemptId)], Failed, usage.GetOr(NotReported()));
      attempts := Saved(attempts, updated);
      if requestId in requests && (updated.usage.input > 0 || updated.usage.output > 0) {
        AppendAttemptUsageEvents(requests[requestId], updated, ids, at);
      }
      return Success(updated);
    }

    method RecordAttemptCancelled(attemptId: string, requestId: string, usage: Option<Reported>, ids: Ids, at: int)
      returns (r: Result<Attempt, MeteringError>)
      modifies this`attempts, ledger
      ensures r.Failure? <==> !HasAttempt(old(attempts), attemptId)
      ensures State() == Step(old(State()), CancelAttempt(attemptId, requestId, usage, ids, at))
    {
      hide EventsFor, AppendedAll;
      if !(exists i :: 0 <= i < |attempts| && attempts[i].id == attemptId) {
        return Failure(AttemptNotFound);
      }
      var updated := Closed(attempts[IndexOf(attempts, attemptId)], Cancelled, usage.GetOr(NotReported()));
      attempts := Saved(attempts, updated);
      if requestId in requests && (updated.usage.input > 0 || updated.usage.output > 0) {
        AppendAttemptUsageEvents(requests[requestId], updated, ids, at);
      }
      return Success(updated);
    }

    method RecordRequestCompleted(requestId: string, status: string, finalAttemptId: Option<string>)
      returns (r: Result<Request, MeteringError>)
      modifies this`requests
      ensures r.Failure? <==> requestId !in old(requests)
      ensures State() == Step(old(State()), CompleteRequest(requestId, status, finalAttemptId))
    {
      hide AttemptsOf, FinalAttempt;
      if requestId !in requests {
        return Failure(RequestNotFound);
      }
      var s := AttemptsOf(attempts, requestId);
      var retries, fallbacks := CountTransitions(s);
      var last := FinalAttempt(s, finalAttemptId);
      var consumption, quality := AddUp(s);
      var q := requests[requestId];
      q := q.(status := status, finalAttemptId := if last.Some? then Some(last.value.id) else None,
              attemptCount := |s|, retryCount := retries, fallbackCount := fallbacks,
              meteringStatus := if quality == QualityIncomplete then Incomplete else Complete, quality := quality,
              logical := if last.Some? && last.value.status == Completed then last.value.usage else NoUsage(),
              consumption := consumption);
      requests := requests[requestId := q];
      return Success(q);
    }

    static method CountTransitions(s: seq<Attempt>) returns (retries: nat, fallbacks: nat)
      ensures retries == Retries(s) && fallbacks == Fallbacks(s)
      ensures retries + fallbacks == if s == [] then 0 else |s| - 1
    {
      retries, fallbacks := 0, 0;
      var i := 1;
      while i < |s|
        invariant s != [] ==> 1 <= i <= |s|
        invariant s == [] ==> i == 1
        invariant s != [] ==> retries == Retries(s[..i]) && fallbacks == Fallbacks(s[..i])
        invariant s == [] ==> retries == fallbacks == 0
        decreases |s| - i
      {
        assert s[..i + 1][..i] == s[..i];
        if s[i].providerId == s[i - 1].providerId {
          retries := retries + 1;
        } else {
          fallbacks := fallbacks + 1;
        }
        i := i + 1;
      }
      assert s != [] ==> s[..|s|] == s;
      RetriesAndFallbacks(s);
    }

    static method AddUp(s: seq<Attempt>) returns (c: Consumption, quality: Quality)
      ensures c == Consumed(s) && quality == QualityOf(s)
    {
      var input, output, cached, reasoning, failed := 0, 0, 0, 0, 0;
      var reported, estimated, unavailable := false, false, false;
      for i := 0 to |s|
        invariant input == SumBy(InputOf, s[..i]) && output == SumBy(OutputOf, s[..i])
        invariant cached == SumBy(CachedOf, s[..i]) && reasoning == SumBy(ReasoningOf, s[..i])
        invariant failed == SumBy(FailureOf, s[..i])
        invariant reported == Any(IsReported, s[..i])
        invariant estimated == Any(IsEstimated, s[..i])
        invariant unavailable == Any(IsUnavailable, s[..i])
      {
        assert s[..i + 1][..i] == s[..i];
        var a := s[i];
        input := input + a.usage.input;
        output := output + a.usage.output;
        cached := cached + a.usage.cached.GetOr(0);
        reasoning := reasoning + a.usage.reasoning.GetOr(0);
        if a.status == Failed {
          failed := failed + 1;
        }
        if a.source == ProviderReported || a.source == ProviderStreamReported {
          reported := true;
        } else if a.source == Estimated {
          estimated := true;
        } else if a.source == Unavailable {
          unavailable := true;
        }
      }
      assert s[..|s|] == s;
      FailuresCounted(s);
      c := Consumption(input, output, input + output, if cached > 0 then Some(cached) else None,
                       if reasoning > 0 then Some(reasoning) else None, |s|, failed);
      if reported && (estimated || unavailable) {
        quality := QualityMixed;
      } else if estimated {
        quality := QualityEstimated;
      } else if unavailable && !reported {
        quality := QualityIncomplete;
      } else {
        quality := QualityReported;
      }
    }
  }
}
