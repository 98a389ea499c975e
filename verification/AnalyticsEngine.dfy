/** The stateful side of usage analytics: the in-memory repository, the projection engine, the query
    service's fold over rollups, and the rebuild from stored records
    (packages/analytics/src/repository.ts, projector.ts, query-service.ts, rebuild.ts). */
module AnalyticsEngine {
  import opened Collections
  import opened LatencySketch
  import opened Analytics

  // ---------------------------------------------------------------- records

  datatype Status = Accepted | Executing | Completed | Failed | Cancelled | Rejected | TimedOut

  datatype Usage = Usage(input: int, output: int, total: int, cached: Option<int>, reasoning: Option<int>)

  datatype Request = Request(
    requestId: string, org: string, workspace: string, apiKey: Option<string>, model: string,
    streaming: bool, status: Status, startedAt: int, completedAt: Option<int>,
    durationMs: Option<real>, ttftMs: Option<real>, attemptCount: int, retryCount: int,
    fallbackCount: int, logical: Usage, consumption: Usage, errorCode: Option<string>)

  datatype Attempt = Attempt(id: string, requestId: string, provider: string, providerModel: string, status: Status)

  /** A usage event; analytics stores what it carries without looking at it. */
  datatype UsageEvent = UsageEvent(id: string, requestId: string, payload: string)

  // ---------------------------------------------------------------- facts

  function One(b: bool): int {
    if b then 1 else 0
  }

  /** A measurement enters its sketch only when it is present and positive. */
  function Measured(ms: Option<real>): (d: Data)
    ensures Stored(d)
  {
    SketchDataStored(if ms.GetOr(0.0) > 0.0 then Recorded(Empty(), Round(ms.value)) else Empty());
    ToJson(if ms.GetOr(0.0) > 0.0 then Recorded(Empty(), Round(ms.value)) else Empty())
  }

  function FirstCompleted(attempts: seq<Attempt>): Option<Attempt> {
    if attempts == [] then None
    else if attempts[0].status.Completed? then Some(attempts[0])
    else FirstCompleted(attempts[1..])
  }

  /** The completed attempt, or else the last one tried. */
  function Winning(attempts: seq<Attempt>): Option<Attempt> {
    if FirstCompleted(attempts).Some? || attempts == [] then FirstCompleted(attempts)
    else Some(attempts[|attempts| - 1])
  }

  function RequestFact(r: Request, attempts: seq<Attempt>): (f: Fact)
    ensures Proper(f.metrics)
  {
    var w := Winning(attempts);
    Fact(r.completedAt.GetOr(r.startedAt),
         Dims(r.org, r.workspace, r.apiKey, Some(r.model),
              if w.Some? then Some(w.value.provider) else None,
              if w.Some? then Some(w.value.providerModel) else None),
         Metrics(
           Counts(1, One(r.status.Completed?), One(r.status.Failed?), One(r.status.Cancelled?), One(r.status.Rejected?),
                  r.attemptCount, r.retryCount, r.fallbackCount, One(r.streaming),
                  r.logical.input, r.logical.output, r.logical.total, r.logical.cached.GetOr(0),
                  r.logical.reasoning.GetOr(0), r.consumption.input, r.consumption.output, r.consumption.total),
           Measured(r.durationMs), Measured(r.ttftMs),
           if r.errorCode.GetOr("") == "" then map[] else map[r.errorCode.value := 1],
           map[], map[]))
  }

  datatype DenialKind = Policy | Quota

  datatype Denial = Denial(kind: DenialKind, org: string, workspace: string, apiKey: Option<string>,
                           model: Option<string>, reason: string, at: int)

  function DenialFact(d: Denial): (f: Fact)
    ensures Proper(f.metrics)
  {
    SketchDataStored(Empty());
    Fact(d.at, Dims(d.org, d.workspace, d.apiKey, d.model, None, None),
         NoMetrics().(counts := NoCounts().(requestsTotal := 1, requestsRejected := 1),
                      policyDenials := if d.kind.Policy? then map[d.reason := 1] else map[],
                      quotaDenials := if d.kind.Quota? then map[d.reason := 1] else map[]))
  }

  // ---------------------------------------------------------------- runs

  datatype Step =
    | Project(request: Request, attempts: seq<Attempt>, events: seq<UsageEvent>)
    | Deny(denial: Denial)

  datatype State = State(rollups: Rollups, requests: Entries<string, Request>,
                         attempts: Entries<string, Attempt>, events: Entries<string, UsageEvent>)

  function StepFact(s: Step): (f: Fact)
    ensures Proper(f.metrics)
  {
    match s
    case Project(r, attempts, _) => RequestFact(r, attempts)
    case Deny(d) => DenialFact(d)
  }

  function Facts(steps: seq<Step>): (fs: seq<Fact>)
    ensures AllProper(fs) && |fs| == |steps|
  {
    seq(|steps|, i requires 0 <= i < |steps| => StepFact(steps[i]))
  }

  function ByAttemptId(attempts: seq<Attempt>): (es: Entries<string, Attempt>)
    ensures |es| == |attempts|
  {
    seq(|attempts|, i requires 0 <= i < |attempts| => (attempts[i].id, attempts[i]))
  }

  function ByEventId(events: seq<UsageEvent>): (es: Entries<string, UsageEvent>)
    ensures |es| == |events|
  {
    seq(|events|, i requires 0 <= i < |events| => (events[i].id, events[i]))
  }

  /** The raw records after one step; denials leave none. */
  function KeepRecords(st: State, s: Step): State {
    match s
    case Deny(_) => st
    case Project(r, attempts, events) =>
      st.(requests := Put(st.requests, r.requestId, r),
          attempts := PutAll(st.attempts, ByAttemptId(attempts)),
          events := PutAll(st.events, ByEventId(events)))
  }

  function After(steps: seq<Step>): State {
    if steps == [] then State([], [], [], [])
    else KeepRecords(After(steps[..|steps| - 1]), steps[|steps| - 1]).(rollups := Projected(Facts(steps)))
  }

  // ---------------------------------------------------------------- rebuilding

  function AttemptsOf(attempts: seq<Attempt>, requestId: string): seq<Attempt> {
    if attempts == [] then []
    else (if attempts[0].requestId == requestId then [attempts[0]] else []) + AttemptsOf(attempts[1..], requestId)
  }

  function EventsOf(events: seq<UsageEvent>, requestId: string): (r: seq<UsageEvent>)
    ensures forall e :: e in r ==> e in events
  {
    if events == [] then []
    else (if events[0].requestId == requestId then [events[0]] else []) + EventsOf(events[1..], requestId)
  }

  function RebuildFacts(requests: seq<Request>, attempts: seq<Attempt>): (fs: seq<Fact>)
    ensures AllProper(fs) && |fs| == |requests|
  {
    seq(|requests|, i requires 0 <= i < |requests| =>
      RequestFact(requests[i], AttemptsOf(attempts, requests[i].requestId)))
  }

  /** What a rebuild leaves: the records as they were, and rollups projected from them alone. */
  function Rebuilt(st: State): State {
    st.(rollups := Projected(RebuildFacts(Values(st.requests), Values(st.attempts))))
  }

  function Requests(steps: seq<Step>): (r: seq<Step>)
    ensures forall s :: s in r ==> s.Project? && s in steps
  {
    if steps == [] then []
    else Requests(steps[..|steps| - 1]) + if steps[|steps| - 1].Project? then [steps[|steps| - 1]] else []
  }

  function AllAttempts(steps: seq<Step>): seq<Attempt> {
    if steps == [] then []
    else AllAttempts(steps[..|steps| - 1]) + if steps[|steps| - 1].Project? then steps[|steps| - 1].attempts else []
  }

  predicate OnlyProjections(steps: seq<Step>) {
    forall i :: 0 <= i < |steps| ==> steps[i].Project?
  }

  /** No request id is projected twice. */
  ghost predicate NamedOnce(steps: seq<Step>) {
    forall i, j :: 0 <= i < j < |steps| && steps[i].Project? && steps[j].Project? ==>
      steps[i].request.requestId != steps[j].request.requestId
  }

  /** Every request is projected once, with its own attempts, and no two attempts share an id. */
  ghost predicate ProjectedOnce(steps: seq<Step>) {
    && NamedOnce(steps)
    && (forall i, a :: 0 <= i < |steps| && steps[i].Project? && a in steps[i].attempts ==>
          a.requestId == steps[i].request.requestId)
    && (forall i, j :: 0 <= i < j < |AllAttempts(steps)| ==> AllAttempts(steps)[i].id != AllAttempts(steps)[j].id)
  }

  lemma {:induction false} AttemptsOfConcat(a: seq<Attempt>, b: seq<Attempt>, id: string)
    ensures AttemptsOf(a + b, id) == AttemptsOf(a, id) + AttemptsOf(b, id)
  {
    if a == [] {
      assert a + b == b;
    } else {
      assert (a + b)[0] == a[0] && (a + b)[1..] == a[1..] + b;
      AttemptsOfConcat(a[1..], b, id);
      var head := if a[0].requestId == id then [a[0]] else [];
      assert AttemptsOf(a + b, id) == head + (AttemptsOf(a[1..], id) + AttemptsOf(b, id));
    }
  }

  lemma {:induction false} AttemptsOfOwn(a: seq<Attempt>, id: string, owner: string)
    requires forall x :: x in a ==> x.requestId == owner
    ensures AttemptsOf(a, id) == if id == owner then a else []
  {
    if a != [] {
      AttemptsOfOwn(a[1..], id, owner);
    }
  }

  lemma OnceBefore(steps: seq<Step>)
    requires steps != [] && ProjectedOnce(steps)
    ensures ProjectedOnce(steps[..|steps| - 1])
  {
    var front := steps[..|steps| - 1];
    assert forall i :: 0 <= i < |AllAttempts(front)| ==> AllAttempts(front)[i] == AllAttempts(steps)[i];
  }

  lemma AttemptsOfLast(steps: seq<Step>, id: string)
    requires ProjectedOnce(steps) && steps != []
    ensures var front, s := steps[..|steps| - 1], steps[|steps| - 1];
            AttemptsOf(AllAttempts(steps), id) ==
            AttemptsOf(AllAttempts(front), id) + if s.Project? && s.request.requestId == id then s.attempts else []
  {
    var front, s := steps[..|steps| - 1], steps[|steps| - 1];
    if s.Project? {
      AttemptsOfOwn(s.attempts, id, s.request.requestId);
      AttemptsOfConcat(AllAttempts(front), s.attempts, id);
    } else {
      assert AllAttempts(steps) == AllAttempts(front);
    }
  }

  lemma {:induction false} ForeignAttempts(steps: seq<Step>, id: string)
    requires ProjectedOnce(steps)
    requires forall i :: 0 <= i < |steps| && steps[i].Project? ==> steps[i].request.requestId != id
    ensures AttemptsOf(AllAttempts(steps), id) == []
  {
    if steps != [] {
      OnceBefore(steps);
      ForeignAttempts(steps[..|steps| - 1], id);
      AttemptsOfLast(steps, id);
    }
  }

  /** Filtering all stored attempts by request gives back what each request was projected with. */
  lemma {:induction false} OwnAttempts(steps: seq<Step>, i: nat)
    requires ProjectedOnce(steps) && i < |steps| && steps[i].Project?
    ensures AttemptsOf(AllAttempts(steps), steps[i].request.requestId) == steps[i].attempts
  {
    var front, id := steps[..|steps| - 1], steps[i].request.requestId;
    OnceBefore(steps);
    AttemptsOfLast(steps, id);
    if i < |front| {
      assert front[i] == steps[i];
      OwnAttempts(front, i);
    } else {
      ForeignAttempts(front, id);
    }
  }

  lemma {:induction false} StoredAttempts(steps: seq<Step>)
    requires ProjectedOnce(steps)
    ensures After(steps).attempts == ByAttemptId(AllAttempts(steps))
  {
    hide After, AllAttempts, ByAttemptId, ProjectedOnce, Put, PutAll, Distinct;
    AttemptsStep(steps);
    if steps != [] {
      var front, s := steps[..|steps| - 1], steps[|steps| - 1];
      OnceBefore(steps);
      StoredAttempts(front);
      if s.Project? {
        DistinctAttempts(steps);
        PutAllNew(After(front).attempts, ByAttemptId(s.attempts));
      }
    }
  }

  lemma AttemptsStep(steps: seq<Step>)
    ensures steps == [] ==> After(steps).attempts == ByAttemptId(AllAttempts(steps)) == []
    ensures steps != [] ==>
              var front, s := steps[..|steps| - 1], steps[|steps| - 1];
              && After(steps).attempts
                 == (if s.Project? then PutAll(After(front).attempts, ByAttemptId(s.attempts))
                     else After(front).attempts)
              && ByAttemptId(AllAttempts(steps))
                 == ByAttemptId(AllAttempts(front)) + if s.Project? then ByAttemptId(s.attempts) else []
  {
    hide PutAll, Put, Projected, Facts;
  }

  lemma DistinctAttempts(steps: seq<Step>)
    requires ProjectedOnce(steps)
    ensures Distinct(ByAttemptId(AllAttempts(steps)))
  {
  }

  /** The stored requests: those of the projections, in the order of the projections. */
  function RequestEntries(steps: seq<Step>): Entries<string, Request> {
    if steps == [] then []
    else
      var s := steps[|steps| - 1];
      RequestEntries(steps[..|steps| - 1]) + if s.Project? then [(s.request.requestId, s.request)] else []
  }

  lemma {:induction false} NewRequest(steps: seq<Step>, id: string)
    requires forall i :: 0 <= i < |steps| && steps[i].Project? ==> steps[i].request.requestId != id
    ensures id !in KeySet(RequestEntries(steps))
  {
    if steps != [] {
      NewRequest(steps[..|steps| - 1], id);
    }
  }

  lemma {:induction false} StoredRequests(steps: seq<Step>)
    requires ProjectedOnce(steps)
    ensures After(steps).requests == RequestEntries(steps)
  {
    if steps != [] {
      var front, s := steps[..|steps| - 1], steps[|steps| - 1];
      hide Projected;
      OnceBefore(steps);
      StoredRequests(front);
      if s.Project? {
        NewRequest(front, s.request.requestId);
      }
    }
  }

  lemma RebuildOneMore(requests: seq<Request>, r: Request, attempts: seq<Attempt>)
    ensures RebuildFacts(requests + [r], attempts) ==
            RebuildFacts(requests, attempts) + [RequestFact(r, AttemptsOf(attempts, r.requestId))]
  {
  }

  lemma FactsOneMore(steps: seq<Step>, s: Step)
    ensures Facts(steps + [s]) == Facts(steps) + [StepFact(s)]
  {
  }

  lemma ValuesOneMore(es: Entries<string, Request>, e: (string, Request))
    ensures Values(es + [e]) == Values(es) + [e.1]
  {
  }

  /** The facts a rebuild projects are those of the run's requests, in the same order. */
  lemma {:induction false} RebuildsTheRequests(steps: seq<Step>, all: seq<Step>)
    requires ProjectedOnce(all) && steps <= all
    ensures RebuildFacts(Values(RequestEntries(steps)), AllAttempts(all)) == Facts(Requests(steps))
  {
    hide RequestFact, DenialFact, ProjectedOnce, RebuildFacts, Facts, Values;
    if steps == [] {
      NothingToRebuild(AllAttempts(all));
    } else {
      var front, s := steps[..|steps| - 1], steps[|steps| - 1];
      RebuildsTheRequests(front, all);
      if s.Project? {
        assert all[|front|] == s;
        OwnAttempts(all, |front|);
        RebuildOneMore(Values(RequestEntries(front)), s.request, AllAttempts(all));
        ValuesOneMore(RequestEntries(front), (s.request.requestId, s.request));
        FactsOneMore(Requests(front), s);
      } else {
        assert RequestEntries(steps) == RequestEntries(front) && Requests(steps) == Requests(front);
      }
    }
  }

  lemma NothingToRebuild(attempts: seq<Attempt>)
    ensures RebuildFacts(Values(RequestEntries([])), attempts) == Facts(Requests([]))
  {
  }

  lemma RequestsStep(steps: seq<Step>)
    requires steps != []
    ensures var front, s := steps[..|steps| - 1], steps[|steps| - 1];
            steps == front + [s] && Requests(steps) == Requests(front) + if s.Project? then [s] else []
  {
  }

  lemma {:induction false} FewerRequests(steps: seq<Step>)
    ensures |Requests(steps)| <= |steps|
  {
    if steps != [] {
      RequestsStep(steps);
      FewerRequests(steps[..|steps| - 1]);
    }
  }

  lemma {:induction false} AllRequests(steps: seq<Step>)
    requires OnlyProjections(steps)
    ensures Requests(steps) == steps
  {
    if steps != [] {
      RequestsStep(steps);
      AllRequests(steps[..|steps| - 1]);
    }
  }

  lemma {:induction false} NoOtherSteps(steps: seq<Step>, i: nat)
    requires |Requests(steps)| == |steps| && i < |steps|
    ensures steps[i].Project?
  {
    var front := steps[..|steps| - 1];
    RequestsStep(steps);
    FewerRequests(front);
    if i < |front| {
      NoOtherSteps(front, i);
    }
  }

  lemma OnlyRequests(steps: seq<Step>)
    ensures |Requests(steps)| == |steps| <==> OnlyProjections(steps)
    ensures |Requests(steps)| == |steps| ==> Requests(steps) == steps
  {
    hide Requests;
    if |Requests(steps)| == |steps| {
      forall i | 0 <= i < |steps| ensures steps[i].Project? {
        NoOtherSteps(steps, i);
      }
    }
    if OnlyProjections(steps) {
      AllRequests(steps);
    }
  }

  /** A rebuild keeps the records and projects the run's requests alone. */
  lemma RebuildProjectsRequests(steps: seq<Step>)
    requires ProjectedOnce(steps)
    ensures Rebuilt(After(steps)) == After(steps).(rollups := Projected(Facts(Requests(steps))))
  {
    StoredAttempts(steps);
    StoredRequests(steps);
    RebuildsTheRequests(steps, steps);
    assert Values(ByAttemptId(AllAttempts(steps))) == AllAttempts(steps);
  }

  lemma AfterRollups(steps: seq<Step>)
    ensures After(steps).rollups == Projected(Facts(steps))
  {
  }

  // ---------------------------------------------------------------- every request counts once

  function CountRequests(rs: Rollups): int {
    if rs == [] then 0 else rs[0].1.metrics.counts.requestsTotal + CountRequests(rs[1..])
  }

  lemma {:induction false} CountSave(rs: Rollups, r: Rollup)
    requires WellKept(rs) && Proper(r.metrics) && r.end == r.start + Width(r.bucket) - 1
    ensures Get(rs, KeyOf(r)).Some? ==> Proper(Get(rs, KeyOf(r)).value.metrics)
    ensures CountRequests(SaveRollup(rs, r)) == CountRequests(rs) + r.metrics.counts.requestsTotal
  {
    var after := SaveRollup(rs, r);
    if rs == [] {
      assert after == [(KeyOf(r), r)] && after[1..] == [];
    } else {
      SaveStep(rs, r);
      hide SaveRollup, KeyOf, Proper, WellKept, Get, Distinct, MergeData, AddMaps;
      if rs[0].0 == KeyOf(r) {
        assert after[1..] == rs[1..];
      } else {
        CountSave(rs[1..], r);
        assert after[1..] == SaveRollup(rs[1..], r);
      }
    }
  }

  lemma {:induction false} CountProjected(fs: seq<Fact>)
    requires AllProper(fs) && forall i :: 0 <= i < |fs| ==> fs[i].metrics.counts.requestsTotal == 1
    ensures CountRequests(Projected(fs)) == 2 * |fs|
  {
    if fs != [] {
      CountProjected(Front(fs));
      ProjectStep(fs);
      var before := Projected(Front(fs));
      hide SaveRollup, Projected, Proper, WellKept, Get;
      SaveEffect(before, RollupOf(Last(fs), Hour), KeyOf(RollupOf(Last(fs), Hour)));
      CountSave(before, RollupOf(Last(fs), Hour));
      CountSave(SaveRollup(before, RollupOf(Last(fs), Hour)), RollupOf(Last(fs), Day));
    }
  }

  lemma FactCountsOnce(s: Step)
    ensures StepFact(s).metrics.counts.requestsTotal == 1
  {
  }

  lemma CountFacts(steps: seq<Step>)
    ensures CountRequests(Projected(Facts(steps))) == 2 * |steps|
  {
    forall i | 0 <= i < |steps| ensures Facts(steps)[i].metrics.counts.requestsTotal == 1 {
      FactCountsOnce(steps[i]);
    }
    CountProjected(Facts(steps));
  }

  /** When every request was projected once with its own attempts, a rebuild restores the live state
      exactly - rollups, their order and the records - if and only if no denial was projected. */
  lemma RebuildRestores(steps: seq<Step>)
    requires ProjectedOnce(steps)
    ensures Rebuilt(After(steps)) == After(steps) <==> OnlyProjections(steps)
  {
    hide Projected, After, Rebuilt, Facts;
    RebuildProjectsRequests(steps);
    AfterRollups(steps);
    OnlyRequests(steps);
    CountFacts(steps);
    CountFacts(Requests(steps));
  }

  /** A run of one denial, which a rebuild forgets. */
  lemma DenialsAreForgotten(d: Denial)
    ensures ProjectedOnce([Deny(d)])
    ensures After([Deny(d)]).rollups != [] && Rebuilt(After([Deny(d)])).rollups == []
  {
    hide Projected, DenialFact;
    var steps := [Deny(d)];
    assert steps[..0] == [];
    assert AllAttempts(steps) == [];
    AfterRollups(steps);
    CountFacts(steps);
    RebuildProjectsRequests(steps);
    assert Requests(steps) == [];
    NothingProjected([]);
    assert Facts([]) == [];
  }

  // ---------------------------------------------------------------- requests projected again

  /** Some step projects a request with this id. */
  ghost predicate Names(steps: seq<Step>, id: string) {
    exists i :: 0 <= i < |steps| && steps[i].Project? && steps[i].request.requestId == id
  }

  lemma RequestsKept(steps: seq<Step>)
    requires steps != []
    ensures var front, s := steps[..|steps| - 1], steps[|steps| - 1];
            After(steps).requests == if s.Project? then Put(After(front).requests, s.request.requestId, s.request)
                                     else After(front).requests
  {
    hide Put, PutAll, Projected, Facts;
  }

  lemma NothingKept()
    ensures After([]).requests == [] && KeySet(After([]).requests) == {}
  {
  }

  /** A projection files its request under an id, new or not. */
  lemma FiledIds(steps: seq<Step>)
    requires steps != []
    ensures var front, s := After(steps[..|steps| - 1]).requests, steps[|steps| - 1];
            var after := After(steps).requests;
            if !s.Project? then after == front
            else
              && KeySet(after) == KeySet(front) + {s.request.requestId}
              && |after| == |front| + if s.request.requestId in KeySet(front) then 0 else 1
  {
    hide After, KeySet;
    RequestsKept(steps);
  }

  lemma {:induction false} StoredIds(steps: seq<Step>, id: string)
    ensures id in KeySet(After(steps).requests) <==> Names(steps, id)
  {
    hide After, KeySet;
    if steps == [] {
      NothingKept();
    } else {
      FiledIds(steps);
      StoredIds(steps[..|steps| - 1], id);
      NamesLast(steps, id);
    }
  }

  lemma NamesLast(steps: seq<Step>, id: string)
    requires steps != []
    ensures var front, s := steps[..|steps| - 1], steps[|steps| - 1];
            Names(steps, id) <==> Names(front, id) || (s.Project? && s.request.requestId == id)
  {
    var front := steps[..|steps| - 1];
    assert forall i :: 0 <= i < |front| ==> front[i] == steps[i];
    if Names(front, id) {
      var i :| 0 <= i < |front| && front[i].Project? && front[i].request.requestId == id;
      assert steps[i] == front[i];
    }
  }

  /** There are as many stored requests as steps exactly if all steps are projections of different
      requests. */
  lemma {:induction false} FewerStored(steps: seq<Step>)
    ensures |After(steps).requests| <= |steps|
    ensures |After(steps).requests| == |steps| <==> NamedOnce(steps) && OnlyProjections(steps)
  {
    hide After, KeySet;
    if steps == [] {
      NothingKept();
    } else {
      var front, s := steps[..|steps| - 1], steps[|steps| - 1];
      FewerStored(front);
      FiledIds(steps);
      OnlyLast(steps);
      if s.Project? {
        StoredIds(front, s.request.requestId);
        OnceMore(steps);
      }
      hide NamedOnce, OnlyProjections, Names;
    }
  }

  lemma OnlyLast(steps: seq<Step>)
    requires steps != []
    ensures OnlyProjections(steps) <==> OnlyProjections(steps[..|steps| - 1]) && steps[|steps| - 1].Project?
  {
    var front := steps[..|steps| - 1];
    assert forall i :: 0 <= i < |front| ==> front[i] == steps[i];
  }

  lemma OnceMore(steps: seq<Step>)
    requires steps != [] && steps[|steps| - 1].Project?
    ensures NamedOnce(steps)
       <==> NamedOnce(steps[..|steps| - 1]) && !Names(steps[..|steps| - 1], steps[|steps| - 1].request.requestId)
  {
    var front := steps[..|steps| - 1];
    assert forall i :: 0 <= i < |front| ==> front[i] == steps[i];
  }

  lemma CountRebuilt(requests: seq<Request>, attempts: seq<Attempt>)
    ensures CountRequests(Projected(RebuildFacts(requests, attempts))) == 2 * |requests|
  {
    var fs := RebuildFacts(requests, attempts);
    forall i | 0 <= i < |fs| ensures fs[i].metrics.counts.requestsTotal == 1 {
      assert fs[i] == RequestFact(requests[i], AttemptsOf(attempts, requests[i].requestId));
    }
    CountProjected(fs);
  }

  /** After any run, whatever it projects and how often: the rollups count every step, in an hour and in
      a day, and a rebuild counts every stored request. Both count the same exactly if all steps are
      projections and no request is projected twice. */
  lemma RebuildCountsIff(steps: seq<Step>)
    ensures CountRequests(After(steps).rollups) == 2 * |steps|
    ensures CountRequests(Rebuilt(After(steps)).rollups) == 2 * |After(steps).requests|
    ensures CountRequests(Rebuilt(After(steps)).rollups) == CountRequests(After(steps).rollups)
       <==> NamedOnce(steps) && OnlyProjections(steps)
  {
    hide Projected, After, RebuildFacts;
    AfterRollups(steps);
    CountFacts(steps);
    CountRebuilt(Values(After(steps).requests), Values(After(steps).attempts));
    FewerStored(steps);
  }

  /** A request projected twice is counted twice, and once after a rebuild. */
  lemma ProjectedTwice(r: Request, attempts: seq<Attempt>, events: seq<UsageEvent>)
    ensures var st := After([Project(r, attempts, events), Project(r, attempts, events)]);
            CountRequests(st.rollups) == 4 && CountRequests(Rebuilt(st).rollups) == 2
  {
    hide Projected, Rebuilt, CountRequests, KeepRecords;
    var p := Project(r, attempts, events);
    var steps := [p, p];
    RebuildCountsIff(steps);
    assert steps[..1] == [p] && [p][..0] == [];
    RequestsKept(steps);
    RequestsKept([p]);
    assert After([]).requests == [];
  }

  /** A second rebuild changes nothing, whatever was projected before the first. */
  lemma RebuildIsIdempotent(st: State)
    ensures Rebuilt(Rebuilt(st)) == Rebuilt(st)
  {
  }

  // ---------------------------------------------------------------- the repository object

  function SaveFact(rs: Rollups, f: Fact): (r: Rollups)
    requires WellKept(rs) && Proper(f.metrics)
    ensures WellKept(r)
  {
    SaveEffect(rs, RollupOf(f, Hour), KeyOf(RollupOf(f, Hour)));
    var middle := SaveRollup(rs, RollupOf(f, Hour));
    SaveEffect(middle, RollupOf(f, Day), KeyOf(RollupOf(f, Day)));
    SaveRollup(middle, RollupOf(f, Day))
  }

  /** One step on a state. */
  function Advance(st: State, s: Step): State
    requires WellKept(st.rollups)
  {
    KeepRecords(st, s).(rollups := SaveFact(st.rollups, StepFact(s)))
  }

  /** Runs are made of single steps. */
  lemma RunsAreSteps(steps: seq<Step>)
    ensures WellKept(After(steps).rollups)
    ensures steps != [] ==> After(steps) == Advance(After(steps[..|steps| - 1]), steps[|steps| - 1])
  {
    hide After, KeepRecords, StepFact, Projected, SaveRollup, KeyOf, RollupOf, Proper, Facts;
    AfterRollups(steps);
    if steps != [] {
      LastFact(steps);
      ProjectStep(Facts(steps));
      AfterStep(steps);
      AfterRollups(steps[..|steps| - 1]);
    }
  }

  lemma LastFact(steps: seq<Step>)
    requires steps != []
    ensures Facts(steps) != [] && Last(Facts(steps)) == StepFact(steps[|steps| - 1])
    ensures Front(Facts(steps)) == Facts(steps[..|steps| - 1])
  {
    hide StepFact, AllProper;
  }

  lemma AfterStep(steps: seq<Step>)
    requires steps != []
    ensures After(steps)
         == KeepRecords(After(steps[..|steps| - 1]), steps[|steps| - 1]).(rollups := Projected(Facts(steps)))
  {
  }

  /** Records filed under their own ids, each id once. */
  ghost predicate Filed(st: State) {
    && Distinct(st.requests) && Distinct(st.attempts) && Distinct(st.events)
    && (forall i :: 0 <= i < |st.requests| ==> st.requests[i].0 == st.requests[i].1.requestId)
    && (forall i :: 0 <= i < |st.attempts| ==> st.attempts[i].0 == st.attempts[i].1.id)
    && (forall i :: 0 <= i < |st.events| ==> st.events[i].0 == st.events[i].1.id)
  }

  /** Adds one set of counts by name into another. */
  method AddCountsByName(existing: map<string, int>, added: map<string, int>) returns (merged: map<string, int>)
    ensures merged == AddMaps(existing, added)
  {
    merged := existing;
    var rest := added.Keys;
    while rest != {}
      invariant rest <= added.Keys
      invariant merged.Keys == existing.Keys + (added.Keys - rest)
      invariant forall k :: k in merged.Keys ==>
                  merged[k] == At(existing, k) + if k in rest then 0 else At(added, k)
      decreases rest
    {
      var name :| name in rest;
      merged := merged[name := At(merged, name) + added[name]];
      rest := rest - {name};
    }
  }

  method MergeStored(existing: Data, added: Data) returns (d: Data)
    requires Valid(FromJson(existing)) && Valid(FromJson(added))
    ensures d == MergeData(existing, added)
  {
    var merged := new LatencyDistributionSketch(Some(existing));
    var other := new LatencyDistributionSketch(Some(added));
    merged.Merge(other);
    d := merged.ToJSON();
  }

  method Measure(ms: Option<real>) returns (d: Data)
    ensures d == Measured(ms)
  {
    var sketch := new LatencyDistributionSketch(None);
    if ms.Some? && ms.value > 0.0 {
      sketch.Record(ms.value);
    }
    d := sketch.ToJSON();
  }

  class InMemoryAnalyticsRepository {
    var rollups: Rollups
    var requests: Entries<string, Request>
    var attempts: Entries<string, Attempt>
    var usageEvents: Entries<string, UsageEvent>

    ghost function Value(): State
      reads this
    {
      State(rollups, requests, attempts, usageEvents)
    }

    ghost predicate Kept()
      reads this
    {
      WellKept(rollups) && Filed(Value())
    }

    constructor ()
      ensures Kept() && Value() == After([])
    {
      rollups, requests, attempts, usageEvents := [], [], [], [];
    }

    method Save(record: Rollup)
      requires WellKept(rollups) && Proper(record.metrics) && record.end == record.start + Width(record.bucket) - 1
      modifies this`rollups
      ensures WellKept(rollups) && rollups == SaveRollup(old(rollups), record)
    {
      SaveEffect(rollups, record, KeyOf(record));
      var key := KeyOf(record);
      var existing := Get(rollups, key);
      if existing.None? {
        rollups := Put(rollups, key, record);
        return;
      }
      var e := existing.value.metrics;
      var mergedLatency := MergeStored(e.latency, record.metrics.latency);
      var mergedTtft := MergeStored(e.ttft, record.metrics.ttft);
      var mergedErrors := AddCountsByName(e.errors, record.metrics.errors);
      var mergedPolicy := AddCountsByName(e.policyDenials, record.metrics.policyDenials);
      var mergedQuota := AddCountsByName(e.quotaDenials, record.metrics.quotaDenials);
      var metrics := Metrics(AddCounts(e.counts, record.metrics.counts), mergedLatency, mergedTtft, mergedErrors,
                             mergedPolicy, mergedQuota);
      rollups := Put(rollups, key, existing.value.(metrics := metrics));
    }

    method SaveRequestRecord(r: Request)
      modifies this`requests
      ensures requests == Put(old(requests), r.requestId, r)
    {
      requests := Put(requests, r.requestId, r);
    }

    method SaveAttemptRecord(a: Attempt)
      modifies this`attempts
      ensures attempts == Put(old(attempts), a.id, a)
    {
      attempts := Put(attempts, a.id, a);
    }

    method SaveUsageEvent(e: UsageEvent)
      modifies this`usageEvents
      ensures usageEvents == Put(old(usageEvents), e.id, e)
    {
      usageEvents := Put(usageEvents, e.id, e);
    }

    method ClearAllRollups()
      modifies this`rollups
      ensures rollups == []
    {
      rollups := [];
    }
  }

  lemma FiledAnyway(st: State)
    requires Filed(st)
    ensures forall rs :: Filed(st.(rollups := rs))
  {
  }

  lemma {:induction false} FiledPut(st: State, s: Step)
    requires Filed(st)
    ensures Filed(KeepRecords(st, s))
  {
    if s.Project? {
      PutDistinct(st.requests, s.request.requestId, s.request);
      FiledPutRequest(st.requests, s.request);
      FiledPutAttempts(st.attempts, s.attempts);
      FiledPutEvents(st.events, s.events);
    }
  }

  lemma FiledPutRequest(m: Entries<string, Request>, r: Request)
    requires Distinct(m) && forall i :: 0 <= i < |m| ==> m[i].0 == m[i].1.requestId
    ensures var p := Put(m, r.requestId, r);
            Distinct(p) && forall i :: 0 <= i < |p| ==> p[i].0 == p[i].1.requestId
  {
    var p := Put(m, r.requestId, r);
    PutDistinct(m, r.requestId, r);
    forall i | 0 <= i < |p| ensures p[i].0 == p[i].1.requestId {
      GetAt(p, i);
      GetPut(m, r.requestId, r, p[i].0);
      if p[i].0 != r.requestId { assert (p[i].0, p[i].1) in m; }
    }
  }

  lemma {:induction false} FiledPutAttempts(m: Entries<string, Attempt>, attempts: seq<Attempt>)
    requires Distinct(m) && forall i :: 0 <= i < |m| ==> m[i].0 == m[i].1.id
    ensures var p := PutAll(m, ByAttemptId(attempts));
            Distinct(p) && forall i :: 0 <= i < |p| ==> p[i].0 == p[i].1.id
  {
    if attempts != [] {
      var front, a := attempts[..|attempts| - 1], attempts[|attempts| - 1];
      FiledPutAttempts(m, front);
      assert ByAttemptId(attempts)[..|attempts| - 1] == ByAttemptId(front);
      var before := PutAll(m, ByAttemptId(front));
      var p := Put(before, a.id, a);
      PutDistinct(before, a.id, a);
      forall i | 0 <= i < |p| ensures p[i].0 == p[i].1.id {
        GetAt(p, i);
        GetPut(before, a.id, a, p[i].0);
        if p[i].0 != a.id { assert (p[i].0, p[i].1) in before; }
      }
    }
  }

  lemma {:induction false} FiledPutEvents(m: Entries<string, UsageEvent>, events: seq<UsageEvent>)
    requires Distinct(m) && forall i :: 0 <= i < |m| ==> m[i].0 == m[i].1.id
    ensures var p := PutAll(m, ByEventId(events));
            Distinct(p) && forall i :: 0 <= i < |p| ==> p[i].0 == p[i].1.id
  {
    if events != [] {
      var front, e := events[..|events| - 1], events[|events| - 1];
      FiledPutEvents(m, front);
      assert ByEventId(events)[..|events| - 1] == ByEventId(front);
      var before := PutAll(m, ByEventId(front));
      var p := Put(before, e.id, e);
      PutDistinct(before, e.id, e);
      forall i | 0 <= i < |p| ensures p[i].0 == p[i].1.id {
        GetAt(p, i);
        GetPut(before, e.id, e, p[i].0);
        if p[i].0 != e.id { assert (p[i].0, p[i].1) in before; }
      }
    }
  }

  class AnalyticsProjectionEngine {
    const repository: InMemoryAnalyticsRepository

    constructor (repository: InMemoryAnalyticsRepository)
      ensures this.repository == repository
    {
      this.repository := repository;
    }

    method SaveBoth(f: Fact)
      requires WellKept(repository.rollups) && Proper(f.metrics)
      modifies repository`rollups
      ensures repository.rollups == SaveFact(old(repository.rollups), f) && WellKept(repository.rollups)
    {
      repository.Save(RollupOf(f, Hour));
      repository.Save(RollupOf(f, Day));
    }

    method SaveRecords(request: Request, attempts: seq<Attempt>, events: seq<UsageEvent>)
      modifies repository`requests, repository`attempts, repository`usageEvents
      ensures repository.Value() == KeepRecords(old(repository.Value()), Project(request, attempts, events))
    {
      hide Put, PutAll, ByAttemptId, ByEventId;
      repository.SaveRequestRecord(request);
      NoneYet(old(repository.attempts), old(repository.usageEvents));
      assert attempts[..0] == [] && events[..0] == [];
      for i := 0 to |attempts|
        invariant repository.requests == Put(old(repository.requests), request.requestId, request)
        invariant repository.usageEvents == old(repository.usageEvents)
        invariant repository.attempts == PutAll(old(repository.attempts), ByAttemptId(attempts[..i]))
      {
        repository.SaveAttemptRecord(attempts[i]);
        OneMoreAttempt(old(repository.attempts), attempts, i);
      }
      assert attempts[..|attempts|] == attempts;
      for i := 0 to |events|
        invariant repository.requests == Put(old(repository.requests), request.requestId, request)
        invariant repository.attempts == PutAll(old(repository.attempts), ByAttemptId(attempts))
        invariant repository.usageEvents == PutAll(old(repository.usageEvents), ByEventId(events[..i]))
      {
        repository.SaveUsageEvent(events[i]);
        OneMoreEvent(old(repository.usageEvents), events, i);
      }
      assert events[..|events|] == events;
    }

    method ProjectRequest(request: Request, attempts: seq<Attempt>, events: seq<UsageEvent>)
      requires repository.Kept()
      modifies repository
      ensures repository.Kept()
      ensures repository.Value() == Advance(old(repository.Value()), Project(request, attempts, events))
    {
      hide Filed, WellKept, SaveFact, Proper, Put, PutAll, Measured, ByAttemptId, ByEventId, RequestFact;
      FiledPut(repository.Value(), Project(request, attempts, events));
      SaveRecords(request, attempts, events);
      var latency := Measure(request.durationMs);
      var ttft := Measure(request.ttftMs);
      var fact := RequestFact(request, attempts);
      SketchesOf(request, attempts);
      assert fact == fact.(metrics := fact.metrics.(latency := latency, ttft := ttft));
      FiledAnyway(repository.Value());
      SaveBoth(fact);
    }

    method ProjectDenial(denial: Denial)
      requires repository.Kept()
      modifies repository
      ensures repository.Kept() && repository.Value() == Advance(old(repository.Value()), Deny(denial))
    {
      FiledAnyway(repository.Value());
      hide DenialFact, Filed, WellKept, SaveFact, Proper;
      SaveBoth(DenialFact(denial));
    }
  }

  lemma SketchesOf(request: Request, attempts: seq<Attempt>)
    ensures RequestFact(request, attempts).metrics.latency == Measured(request.durationMs)
    ensures RequestFact(request, attempts).metrics.ttft == Measured(request.ttftMs)
  {
    hide Measured;
  }

  lemma NoneYet(attempts: Entries<string, Attempt>, events: Entries<string, UsageEvent>)
    ensures PutAll(attempts, ByAttemptId([])) == attempts && PutAll(events, ByEventId([])) == events
  {
  }

  lemma OneMoreAttempt(m: Entries<string, Attempt>, attempts: seq<Attempt>, i: nat)
    requires i < |attempts|
    ensures PutAll(m, ByAttemptId(attempts[..i + 1])) ==
            Put(PutAll(m, ByAttemptId(attempts[..i])), attempts[i].id, attempts[i])
  {
    var es := ByAttemptId(attempts[..i + 1]);
    assert es[..|es| - 1] == ByAttemptId(attempts[..i]);
  }

  lemma OneMoreEvent(m: Entries<string, UsageEvent>, events: seq<UsageEvent>, i: nat)
    requires i < |events|
    ensures PutAll(m, ByEventId(events[..i + 1])) == Put(PutAll(m, ByEventId(events[..i])), events[i].id, events[i])
  {
    var es := ByEventId(events[..i + 1]);
    assert es[..|es| - 1] == ByEventId(events[..i]);
  }

  // ---------------------------------------------------------------- rebuild and query services

  /** Records a rebuild reads back are already stored under their ids. */
  lemma ReSavedRecords(st: State, r: Request)
    requires Filed(st) && (r.requestId, r) in st.requests
    ensures KeepRecords(st, Project(r, AttemptsOf(Values(st.attempts), r.requestId),
                                    EventsOf(Values(st.events), r.requestId))) == st
  {
    hide Get, Put, PutAll, AttemptsOf, EventsOf;
    var i :| 0 <= i < |st.requests| && st.requests[i] == (r.requestId, r);
    GetAt(st.requests, i);
    PutSame(st.requests, r.requestId, r);
    var attempts := AttemptsOf(Values(st.attempts), r.requestId);
    forall k | 0 <= k < |attempts| ensures Get(st.attempts, attempts[k].id) == Some(attempts[k]) {
      AttemptsAmong(Values(st.attempts), r.requestId, attempts[k]);
      var j :| 0 <= j < |Values(st.attempts)| && Values(st.attempts)[j] == attempts[k];
      GetAt(st.attempts, j);
    }
    PutAllSame(st.attempts, ByAttemptId(attempts));
    var events := EventsOf(Values(st.events), r.requestId);
    forall k | 0 <= k < |events| ensures Get(st.events, events[k].id) == Some(events[k]) {
      assert events[k] in Values(st.events);
      var j :| 0 <= j < |Values(st.events)| && Values(st.events)[j] == events[k];
      GetAt(st.events, j);
    }
    PutAllSame(st.events, ByEventId(events));
  }

  lemma {:induction false} AttemptsAmong(attempts: seq<Attempt>, requestId: string, a: Attempt)
    requires a in AttemptsOf(attempts, requestId)
    ensures a in attempts
  {
    if a in AttemptsOf(attempts[1..], requestId) {
      AttemptsAmong(attempts[1..], requestId, a);
    }
  }

  lemma SaveFactProjects(fs: seq<Fact>, f: Fact)
    requires AllProper(fs) && Proper(f.metrics)
    ensures AllProper(fs + [f]) && Projected(fs + [f]) == SaveFact(Projected(fs), f)
  {
    assert Front(fs + [f]) == fs && Last(fs + [f]) == f;
    ProjectStep(fs + [f]);
  }

  class AnalyticsRebuildService {
    const repository: InMemoryAnalyticsRepository

    constructor (repository: InMemoryAnalyticsRepository)
      ensures this.repository == repository
    {
      this.repository := repository;
    }

    method RebuildFromAuthoritativeLedger()
      returns (processedRequests: nat, processedAttempts: nat, processedEvents: nat)
      requires repository.Kept()
      modifies repository
      ensures repository.Kept() && repository.Value() == Rebuilt(old(repository.Value()))
      ensures processedRequests == |repository.requests| && processedAttempts == |repository.attempts|
      ensures processedEvents == |repository.usageEvents|
    {
      hide Filed, WellKept, KeepRecords, RequestFact, SaveFact, Proper, RebuildFacts, AllProper, AttemptsOf, EventsOf;
      hide Values, Projected, Put, PutAll, DenialFact;
      FiledAnyway(repository.Value());
      repository.ClearAllRollups();
      var requests := Values(repository.requests);
      var attempts := Values(repository.attempts);
      var events := Values(repository.usageEvents);
      ghost var st := old(repository.Value());
      var engine := new AnalyticsProjectionEngine(repository);
      NothingProjected(attempts);
      assert requests[..0] == [];
      for i := 0 to |requests|
        invariant repository.Kept()
        invariant repository.Value() == st.(rollups := Projected(RebuildFacts(requests[..i], attempts)))
      {
        var req := requests[i];
        var reqAttempts := AttemptsOf(attempts, req.requestId);
        var reqEvents := EventsOf(events, req.requestId);
        ReSaved(repository.Value(), st, i);
        engine.ProjectRequest(req, reqAttempts, reqEvents);
        RebuildOneMore(requests[..i], req, attempts);
        SaveFactProjects(RebuildFacts(requests[..i], attempts), RequestFact(req, reqAttempts));
        assert requests[..i + 1] == requests[..i] + [req];
      }
      assert requests[..|requests|] == requests;
      return |requests|, |attempts|, |events|;
    }
  }

  lemma NothingProjected(attempts: seq<Attempt>)
    ensures RebuildFacts([], attempts) == [] && AllProper([]) && Projected([]) == [] && WellKept([])
  {
  }

  lemma ReSaved(now: State, st: State, i: nat)
    requires Filed(now) && now == st.(rollups := now.rollups) && i < |st.requests|
    ensures var r := Values(st.requests)[i];
            KeepRecords(now, Project(r, AttemptsOf(Values(st.attempts), r.requestId),
                                     EventsOf(Values(st.events), r.requestId))) == now
  {
    assert st.requests[i] in now.requests;
    ReSavedRecords(now, st.requests[i].1);
  }

  datatype Requested = Auto | ByMinute | ByHour | ByDay | ByMonth

  function ResolveTimeGranularity(startTime: int, endTime: int, requested: Requested): Granularity {
    match requested
    case Auto => if endTime - startTime > 30 * DAY then Day else Hour
    case ByDay => Day
    case ByMonth => Day
    case _ => Hour
  }

  // ---------------------------------------------------------------- hours against days

  lemma StraddlerIsDenial(q: Query)
    ensures StepFact(Deny(Denial(Policy, q.org, q.workspace.GetOr(""), q.apiKey, None, "no", Straddler(q).at)))
         == Straddler(q)
  {
  }

  /** Over every run of the projection engine, a summary gives the same totals, percentiles and use by
      model at either granularity, exactly when its window is made of whole days. */
  lemma SummariesOfRunsAgree(q: Query)
    requires q.startTime <= q.endTime
    ensures WholeDays(q) <==>
            forall steps :: WellKept(After(steps).rollups) ==>
              Summarize(After(steps).rollups, q, Hour) == Summarize(After(steps).rollups, q, Day)
  {
    hide After, Summarize, Projected, Facts, StepFact, Straddler, WellKept;
    if WholeDays(q) {
      forall steps | WellKept(After(steps).rollups)
        ensures Summarize(After(steps).rollups, q, Hour) == Summarize(After(steps).rollups, q, Day)
      {
        AfterRollups(steps);
        SummarizeFacts(Facts(steps), q, Hour);
        SummarizeFacts(Facts(steps), q, Day);
        FactTotalsAgree(Facts(steps), q);
      }
    } else {
      var d := Denial(Policy, q.org, q.workspace.GetOr(""), q.apiKey, None, "no", Straddler(q).at);
      var steps := [Deny(d)];
      StraddlerIsDenial(q);
      OneFact(Deny(d));
      AfterRollups(steps);
      StraddlerSplits(q);
      SummarizeFacts(Facts(steps), q, Hour);
      SummarizeFacts(Facts(steps), q, Day);
    }
  }

  lemma OneFact(s: Step)
    ensures Facts([s]) == [StepFact(s)]
  {
  }

  datatype Percentiles = Percentiles(p50: int, p95: int, p99: int)

  function PercentilesOf(s: Sketch): Percentiles
    requires Valid(s)
  {
    Percentiles(Percentile(s, 50.0), Percentile(s, 95.0), Percentile(s, 99.0))
  }

  datatype UsageSummary = UsageSummary(
    granularity: Granularity, totals: Totals, latency: Percentiles, ttft: Percentiles)

  function SummaryOf(rs: Rollups, q: Query, g: Granularity): UsageSummary
    requires WellKept(rs)
  {
    var t := Summarize(rs, q, g);
    UsageSummary(g, t, PercentilesOf(t.latency), PercentilesOf(t.ttft))
  }

  /** What a summary is cached under: a filter that is absent and an empty one are the same. */
  datatype SummaryKey = SummaryKey(org: string, workspace: string, apiKey: string, startTime: int, endTime: int,
                                   granularity: Granularity)

  datatype CachedSummary = CachedSummary(data: UsageSummary, expiresAt: int)

  type SummaryCache = map<SummaryKey, CachedSummary>

  const SUMMARY_TTL: int := 15000

  function KeyOfSummary(q: Query, g: Granularity): SummaryKey {
    SummaryKey(q.org, q.workspace.GetOr(""), q.apiKey.GetOr(""), q.startTime, q.endTime, g)
  }

  /** What a summary query answers, and the cache it leaves. */
  function Asked(cache: SummaryCache, rs: Rollups, q: Query, g: Granularity, now: int)
    : (UsageSummary, SummaryCache)
    requires WellKept(rs)
  {
    var k := KeyOfSummary(q, g);
    if k in cache && now <= cache[k].expiresAt then (cache[k].data, cache)
    else
      var data := SummaryOf(rs, q, g);
      (data, cache[k := CachedSummary(data, now + SUMMARY_TTL)])
  }

  // ---------------------------------------------------------------- how old an answer may be

  datatype Happening = Projects(step: Step) | Asks(query: Query, granularity: Granularity, now: int)

  function StepsOf(hs: seq<Happening>): seq<Step> {
    if hs == [] then []
    else StepsOf(hs[..|hs| - 1]) + if hs[|hs| - 1].Projects? then [hs[|hs| - 1].step] else []
  }

  /** The rollups after what has happened. */
  function RollupsAfter(hs: seq<Happening>): (rs: Rollups)
    ensures WellKept(rs)
  {
    AfterRollups(StepsOf(hs));
    After(StepsOf(hs)).rollups
  }

  /** The cached summaries after what has happened. */
  function CacheAfter(hs: seq<Happening>): SummaryCache {
    if hs == [] then map[]
    else
      var before, h := hs[..|hs| - 1], hs[|hs| - 1];
      match h
      case Projects(_) => CacheAfter(before)
      case Asks(q, g, now) => Asked(CacheAfter(before), RollupsAfter(before), q, g, now).1
  }

  lemma {:induction false} SelectedBy(rs: Rollups, q: Query, p: Query, g: Granularity)
    requires KeyOfSummary(q, g) == KeyOfSummary(p, g)
    ensures Selected(rs, q, g) == Selected(rs, p, g)
  {
    if rs != [] {
      SelectedBy(rs[1..], q, p, g);
      assert Matches(q, g, rs[0].1) == Matches(p, g, rs[0].1);
    }
  }

  lemma SameSummary(rs: Rollups, q: Query, p: Query, g: Granularity)
    requires WellKept(rs) && KeyOfSummary(q, g) == KeyOfSummary(p, g)
    ensures SummaryOf(rs, q, g) == SummaryOf(rs, p, g)
  {
    SelectedBy(rs, q, p, g);
  }

  /** The answer is a summary of the rollups as they were, at the time of an earlier query or now. */
  ghost predicate AsOf(hs: seq<Happening>, i: nat, q: Query, g: Granularity, answer: UsageSummary, expiresAt: int) {
    && i < |hs|
    && hs[i].Asks?
    && hs[i].now + SUMMARY_TTL == expiresAt
    && answer == SummaryOf(RollupsAfter(hs[..i]), q, g)
  }

  /** Every cached summary was computed from the rollups, at the time of a query fifteen seconds before it
      expires. */
  lemma {:induction false} CacheIsRecent(hs: seq<Happening>, q: Query, g: Granularity)
    ensures var k, c := KeyOfSummary(q, g), CacheAfter(hs);
            k in c ==> exists i: nat :: AsOf(hs, i, q, g, c[k].data, c[k].expiresAt)
  {
    hide RollupsAfter, SummaryOf, KeyOfSummary;
    var k, c := KeyOfSummary(q, g), CacheAfter(hs);
    if hs != [] && k in c {
      var n := |hs| - 1;
      var before := hs[..n];
      if k in CacheAfter(before) && CacheAfter(before)[k] == c[k] {
        CacheIsRecent(before, q, g);
        var i: nat :| AsOf(before, i, q, g, c[k].data, c[k].expiresAt);
        assert before[..i] == hs[..i];
        assert AsOf(hs, i, q, g, c[k].data, c[k].expiresAt);
      } else {
        var p := hs[n].query;
        assert KeyOfSummary(p, hs[n].granularity) == k;
        KeyTellsGranularity(p, hs[n].granularity, q, g);
        SameSummary(RollupsAfter(before), p, q, g);
        assert AsOf(hs, n, q, g, c[k].data, c[k].expiresAt);
      }
    }
  }

  lemma KeyTellsGranularity(p: Query, f: Granularity, q: Query, g: Granularity)
    requires KeyOfSummary(p, f) == KeyOfSummary(q, g)
    ensures f == g
  {
  }

  /** In every run of projections and queries, a query is answered from the rollups as they are, or as
      they were at a query no more than fifteen seconds before. */
  lemma AnswersAreRecent(hs: seq<Happening>, q: Query, g: Granularity, now: int)
    ensures var answer := Asked(CacheAfter(hs), RollupsAfter(hs), q, g, now).0;
            || answer == SummaryOf(RollupsAfter(hs), q, g)
            || exists i: nat ::
                 i < |hs| && hs[i].Asks? && now <= hs[i].now + SUMMARY_TTL
                 && answer == SummaryOf(RollupsAfter(hs[..i]), q, g)
  {
    hide RollupsAfter, SummaryOf, CacheAfter;
    CacheIsRecent(hs, q, g);
  }

  lemma SummaryIsSum(rs: Rollups, q: Query, g: Granularity)
    requires WellKept(rs)
    ensures AllProperRollups(QueryRollups(rs, q, g)) && Summarize(rs, q, g) == SumTotals(QueryRollups(rs, q, g))
  {
    SelectedProper(rs, q, g);
    SortTotals(Selected(rs, q, g));
  }

  lemma SumUnrolled(s: seq<Rollup>, i: nat)
    requires i <= |s| && AllProperRollups(s)
    ensures AllProperRollups(s[i..])
    ensures i == |s| ==> SumTotals(s[i..]) == NoTotals()
    ensures i < |s| ==>
              && Proper(s[i].metrics) && AllProperRollups(s[i + 1..])
              && SumTotals(s[i..]) == AddTotals(TotalsOf(s[i]), SumTotals(s[i + 1..]))
  {
    if i < |s| {
      assert s[i..][1..] == s[i + 1..];
    }
  }

  lemma ValidParts(t: Totals)
    requires ValidTotals(t)
    ensures Valid(t.latency) && Valid(t.ttft)
  {
  }

  class AnalyticsQueryService {
    const repository: InMemoryAnalyticsRepository
    var cache: SummaryCache

    constructor (repository: InMemoryAnalyticsRepository)
      ensures this.repository == repository && cache == map[]
    {
      this.repository := repository;
      cache := map[];
    }

    /** The loop over the rollups of the window. */
    method Compute(q: Query, granularity: Granularity) returns (summary: UsageSummary)
      requires WellKept(repository.rollups)
      ensures summary == SummaryOf(repository.rollups, q, granularity)
    {
      hide *;
      var rollups := QueryRollups(repository.rollups, q, granularity);
      SummaryIsSum(repository.rollups, q, granularity);
      var totals := NoTotals();
      AddTotalsLaws(SumTotals(rollups), NoTotals(), NoTotals());
      assert rollups[0..] == rollups;
      for i := 0 to |rollups|
        invariant ValidTotals(totals) && AllProperRollups(rollups[i..])
        invariant AddTotals(totals, SumTotals(rollups[i..])) == SumTotals(rollups)
      {
        var r := rollups[i];
        SumUnrolled(rollups, i);
        AddTotalsLaws(totals, TotalsOf(r), SumTotals(rollups[i + 1..]));
        totals := AddTotals(totals, TotalsOf(r));
      }
      SumUnrolled(rollups, |rollups|);
      AddTotalsLaws(totals, NoTotals(), NoTotals());
      ValidParts(totals);
      SummaryParts(repository.rollups, q, granularity);
      return UsageSummary(granularity, totals, PercentilesOf(totals.latency), PercentilesOf(totals.ttft));
    }

    /** An expired entry is dropped, and a new one takes its place. */
    method GetCustomerUsageSummary(q: Query, requested: Requested, now: int)
      returns (res: Result<UsageSummary, string>)
      requires WellKept(repository.rollups)
      modifies this`cache
      ensures res.Failure? <==> q.startTime > q.endTime
      ensures res.Failure? ==> cache == old(cache)
      ensures res.Success? ==>
                (res.value, cache)
                == Asked(old(cache), repository.rollups, q,
                         ResolveTimeGranularity(q.startTime, q.endTime, requested), now)
    {
      hide SummaryOf, WellKept;
      if q.startTime > q.endTime {
        return Failure("startTime cannot be greater than endTime");
      }
      var granularity := ResolveTimeGranularity(q.startTime, q.endTime, requested);
      var key := KeyOfSummary(q, granularity);
      if key in cache {
        if now <= cache[key].expiresAt {
          return Success(cache[key].data);
        }
        cache := cache - {key};
      }
      var summary := Compute(q, granularity);
      cache := cache[key := CachedSummary(summary, now + SUMMARY_TTL)];
      assert cache == old(cache)[key := CachedSummary(summary, now + SUMMARY_TTL)];
      return Success(summary);
    }
  }

  lemma SummaryParts(rs: Rollups, q: Query, g: Granularity)
    requires WellKept(rs)
    ensures var t := Summarize(rs, q, g);
            SummaryOf(rs, q, g) == UsageSummary(g, t, PercentilesOf(t.latency), PercentilesOf(t.ttft))
  {
  }
}
