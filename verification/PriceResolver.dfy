/** Choosing the price schedule for a provider call (packages/pricing/src/provider-price-resolver.ts). */
module PriceResolver {
  import opened Collections
  import opened Decimals
  import opened Sorting
  import opened Sums
  import opened Text

  datatype UsageType =
    | InputTokens | OutputTokens | CachedInputTokens | ReasoningTokens | SearchCalls | OtherUsage(name: string)

  datatype ScheduleStatus = Draft | Active | Retired | Scheduled

  datatype Schedule = Schedule(
    id: string, providerId: string, providerRouteId: Option<string>, canonicalModelId: Option<string>,
    providerModelId: Option<string>, region: Option<string>, credentialId: Option<string>,
    currency: string, status: ScheduleStatus, effectiveFrom: int, effectiveTo: Option<int>, version: int)

  datatype Rate = Rate(usageType: UsageType, price: Decimal, perUnits: int)

  datatype Priced = Priced(schedule: Schedule, rates: seq<Rate>)

  datatype Params = Params(
    providerId: string, providerRouteId: Option<string>, canonicalModelId: Option<string>,
    providerModelId: Option<string>, region: Option<string>, credentialId: Option<string>,
    currency: Option<string>, targetDate: int, scheduleId: Option<string>, version: Option<int>)

  datatype ResolutionError = Ambiguous(score: nat)

  /** An absent or empty text is not given. */
  predicate Given(o: Option<string>) {
    o.Some? && o.value != ""
  }

  function Id(p: Priced): string {
    p.schedule.id
  }

  predicate DistinctSchedules(items: seq<Priced>) {
    forall i, j :: 0 <= i < j < |items| ==> Id(items[i]) != Id(items[j])
  }

  // ---------------------------------------------------------------- specificity

  /** What a schedule names that the caller named too. */
  datatype Specificity = Specificity(route: bool, credential: bool, model: bool, region: bool, canonical: bool)

  /** What a schedule asks for and the caller does not meet. */
  predicate Mismatched(s: Schedule, q: Params) {
    || (Given(s.providerRouteId) && !(Given(q.providerRouteId) && s.providerRouteId == q.providerRouteId))
    || (Given(s.credentialId) && !(Given(q.credentialId) && s.credentialId == q.credentialId))
    || (Given(s.providerModelId) && Given(q.providerModelId)
        && Lower(s.providerModelId.value) != Lower(q.providerModelId.value))
    || (Given(s.region) && s.region.value != "global"
        && !(Given(q.region) && Lower(s.region.value) == Lower(q.region.value)))
  }

  function SpecificityOf(s: Schedule, q: Params): Specificity {
    Specificity(Given(s.providerRouteId), Given(s.credentialId),
                Given(s.providerModelId) && Given(q.providerModelId),
                Given(s.region) && s.region.value != "global",
                Given(s.canonicalModelId) && Given(q.canonicalModelId)
                && Lower(s.canonicalModelId.value) == Lower(q.canonicalModelId.value))
  }

  /** The score as it is added up, with 0 for a mismatch. */
  function Score(s: Schedule, q: Params): nat {
    if Given(s.providerRouteId) && Given(q.providerRouteId) && s.providerRouteId != q.providerRouteId then 0
    else if Given(s.providerRouteId) && !Given(q.providerRouteId) then 0
    else
      var score1 := if Given(s.providerRouteId) && Given(q.providerRouteId) then 10000 else 0;
      if Given(s.credentialId) && Given(q.credentialId) && s.credentialId != q.credentialId then 0
      else if Given(s.credentialId) && !Given(q.credentialId) then 0
      else
        var score2 := score1 + if Given(s.credentialId) && Given(q.credentialId) then 5000 else 0;
        var models := Given(s.providerModelId) && Given(q.providerModelId);
        if models && Lower(s.providerModelId.value) != Lower(q.providerModelId.value) then 0
        else
          var score3 := score2 + if models then 2000 else 0;
          var regional := Given(s.region) && s.region.value != "global";
          if regional && !(Given(q.region) && Lower(s.region.value) == Lower(q.region.value)) then 0
          else
            var score4 := score3 + if regional then 1000 else 0;
            var canonical := Given(s.canonicalModelId) && Given(q.canonicalModelId)
              && Lower(s.canonicalModelId.value) == Lower(q.canonicalModelId.value);
            score4 + (if canonical then 500 else 0) + 100
  }

  function Weight(x: Specificity): nat {
    (if x.route then 10000 else 0) + (if x.credential then 5000 else 0) + (if x.model then 2000 else 0)
    + (if x.region then 1000 else 0) + (if x.canonical then 500 else 0)
  }

  /** Zero for a schedule that asks for what the caller does not meet; otherwise what it names that
      the caller named too, weighed, and 100. */
  method CalculateSpecificityScore(s: Schedule, q: Params) returns (score: nat)
    ensures score == Score(s, q)
    ensures score == if Mismatched(s, q) then 0 else Weight(SpecificityOf(s, q)) + 100
  {
    ScoreSum(s, q);
    hide Mismatched, SpecificityOf, Weight, Lower;
    score := 0;
    if Given(s.providerRouteId) && Given(q.providerRouteId) {
      if s.providerRouteId == q.providerRouteId {
        score := score + 10000;
      } else {
        return 0;
      }
    } else if Given(s.providerRouteId) && !Given(q.providerRouteId) {
      return 0;
    }
    if Given(s.credentialId) && Given(q.credentialId) {
      if s.credentialId == q.credentialId {
        score := score + 5000;
      } else {
        return 0;
      }
    } else if Given(s.credentialId) && !Given(q.credentialId) {
      return 0;
    }
    if Given(s.providerModelId) && Given(q.providerModelId) {
      if Lower(s.providerModelId.value) == Lower(q.providerModelId.value) {
        score := score + 2000;
      } else {
        return 0;
      }
    }
    if Given(s.region) && s.region.value != "global" {
      if Given(q.region) && Lower(s.region.value) == Lower(q.region.value) {
        score := score + 1000;
      } else {
        return 0;
      }
    }
    if Given(s.canonicalModelId) && Given(q.canonicalModelId) {
      if Lower(s.canonicalModelId.value) == Lower(q.canonicalModelId.value) {
        score := score + 500;
      }
    }
    score := score + 100;
  }

  /** Route before credential before provider model before region before canonical model. */
  predicate MoreSpecific(a: Specificity, b: Specificity) {
    if a.route != b.route then a.route
    else if a.credential != b.credential then a.credential
    else if a.model != b.model then a.model
    else if a.region != b.region then a.region
    else a.canonical && !b.canonical
  }

  /** A score is zero for a mismatch, and otherwise orders schedules lexicographically by what they
      name: no number of lesser matches outweighs a greater one. */
  lemma ScoreIsLexicographic(a: Schedule, b: Schedule, q: Params)
    ensures Score(a, q) == 0 <==> Mismatched(a, q)
    ensures !Mismatched(a, q) && !Mismatched(b, q) ==>
              (Score(a, q) > Score(b, q) <==> MoreSpecific(SpecificityOf(a, q), SpecificityOf(b, q)))
              && (Score(a, q) == Score(b, q) <==> SpecificityOf(a, q) == SpecificityOf(b, q))
  {
    hide Given;
    ScoreSum(a, q);
    ScoreSum(b, q);
  }

  lemma ScoreSum(s: Schedule, q: Params)
    ensures Score(s, q) == 0 <==> Mismatched(s, q)
    ensures !Mismatched(s, q) ==> Score(s, q) == Weight(SpecificityOf(s, q)) + 100
  {
    hide Given, Lower;
  }

  // ---------------------------------------------------------------- resolution

  predicate Effective(s: Schedule, q: Params) {
    && Lower(s.providerId) == Lower(q.providerId)
    && !(Given(q.currency) && s.currency != q.currency.value)
    && s.status == Active
    && s.effectiveFrom <= q.targetDate
    && (s.effectiveTo.None? || q.targetDate < s.effectiveTo.value)
  }

  predicate Candidate(p: Priced, q: Params) {
    Effective(p.schedule, q) && Score(p.schedule, q) > 0
  }

  function Candidates(items: seq<Priced>, q: Params): (r: seq<Priced>)
    ensures forall p :: p in r <==> p in items && Candidate(p, q)
    ensures DistinctSchedules(items) ==> DistinctSchedules(r)
  {
    if items == [] then []
    else
      assert items == [items[0]] + items[1..];
      var rest := Candidates(items[1..], q);
      if Candidate(items[0], q) then
        assert DistinctSchedules(items) ==> forall p :: p in rest ==> Id(p) != Id(items[0]);
        [items[0]] + rest
      else rest
  }

  predicate HigherFirst(q: Params, a: Priced, b: Priced) {
    Score(a.schedule, q) >= Score(b.schedule, q)
  }

  function Lookup(items: seq<Priced>, id: string): Option<Priced> {
    if items == [] then None
    else if Id(items[0]) == id then Some(items[0])
    else Lookup(items[1..], id)
  }

  function Resolve(items: seq<Priced>, q: Params): Result<Option<Priced>, ResolutionError> {
    if Given(q.scheduleId) then
      var found := Lookup(items, q.scheduleId.value);
      if found.Some? && q.version.Some? && found.value.schedule.version != q.version.value then Success(None)
      else Success(found)
    else
      var sorted := Sort((a, b) => HigherFirst(q, a, b), Candidates(items, q));
      if sorted == [] then Success(None)
      else if |sorted| > 1 && Score(sorted[0].schedule, q) == Score(sorted[1].schedule, q)
              && Id(sorted[0]) != Id(sorted[1]) then Failure(Ambiguous(Score(sorted[0].schedule, q)))
      else Success(Some(sorted[0]))
  }

  /** `p` matches, and whatever else matches is less specific. */
  ghost predicate MostSpecific(items: seq<Priced>, q: Params, p: Priced) {
    && p in items && Candidate(p, q)
    && forall o :: o in items && Candidate(o, q) && o != p ==>
         MoreSpecific(SpecificityOf(p.schedule, q), SpecificityOf(o.schedule, q))
  }

  lemma SortedCandidates(items: seq<Priced>, q: Params)
    requires DistinctSchedules(items)
    ensures var s := Sort((a, b) => HigherFirst(q, a, b), Candidates(items, q));
            && (forall p :: p in s <==> p in items && Candidate(p, q))
            && (forall i, j :: 0 <= i < j < |s| ==> HigherFirst(q, s[i], s[j]) && Id(s[i]) != Id(s[j]))
  {
    hide Score, Candidate;
    var le := (a, b) => HigherFirst(q, a, b);
    var c := Candidates(items, q);
    var s := Sort(le, c);
    SortSorted(le, c);
    KeysRearranged(Id, c, s);
    forall p ensures p in s <==> p in c {
      assert p in s <==> p in multiset(s);
      assert p in c <==> p in multiset(c);
    }
    forall i, j | 0 <= i < j < |s| ensures HigherFirst(q, s[i], s[j]) && Id(s[i]) != Id(s[j]) {
      assert le(s[i], s[j]);
    }
  }

  lemma ComparedByScore(q: Params, p: Priced, o: Priced)
    requires Candidate(p, q) && Candidate(o, q)
    ensures MoreSpecific(SpecificityOf(p.schedule, q), SpecificityOf(o.schedule, q))
       <==> Score(p.schedule, q) > Score(o.schedule, q)
  {
    ScoreIsLexicographic(p.schedule, o.schedule, q);
    ScoreIsLexicographic(o.schedule, p.schedule, q);
  }

  lemma MatchResolves(items: seq<Priced>, q: Params, p: Priced)
    requires DistinctSchedules(items) && !Given(q.scheduleId)
    ensures Resolve(items, q) == Success(Some(p)) <==> MostSpecific(items, q, p)
    ensures Resolve(items, q) == Success(None) <==> forall o :: o in items ==> !Candidate(o, q)
    ensures Resolve(items, q).Failure?
       <==> (exists o :: o in items && Candidate(o, q)) && !exists o :: MostSpecific(items, q, o)
  {
    hide Score, Candidate, MoreSpecific, SpecificityOf, Sort, Candidates;
    SortedCandidates(items, q);
    var s := Sort((a, b) => HigherFirst(q, a, b), Candidates(items, q));
    forall a, b | Candidate(a, q) && Candidate(b, q)
      ensures MoreSpecific(SpecificityOf(a.schedule, q), SpecificityOf(b.schedule, q))
         <==> Score(a.schedule, q) > Score(b.schedule, q)
    {
      ComparedByScore(q, a, b);
    }
    if s != [] {
      assert s[0] in s;
      forall o | MostSpecific(items, q, o) ensures o == s[0] {
        assert o in s;
      }
      if |s| > 1 {
        assert s[1] in s;
      }
      if Resolve(items, q).Success? {
        forall o | o in s && o != s[0] ensures Score(s[0].schedule, q) > Score(o.schedule, q) {
          var k :| 0 <= k < |s| && s[k] == o;
          assert HigherFirst(q, s[0], s[1]);
          if k > 1 {
            assert HigherFirst(q, s[1], s[k]);
          }
        }
        assert MostSpecific(items, q, s[0]);
      } else {
        assert !MostSpecific(items, q, s[0]);
      }
    } else {
      forall o | o in items ensures !Candidate(o, q) {
        assert o !in s;
      }
    }
  }

  lemma {:induction false} LookupFinds(items: seq<Priced>, id: string, p: Priced)
    requires DistinctSchedules(items)
    ensures Lookup(items, id) == Some(p) <==> p in items && Id(p) == id
    ensures Lookup(items, id).None? <==> forall o :: o in items ==> Id(o) != id
  {
    if items != [] {
      LookupFinds(items[1..], id, p);
      assert items == [items[0]] + items[1..];
    }
  }

  /** The schedule a call is to be priced by: the one it names, whatever its status, currency or period,
      if it has the version it names; or else the most specific one that matches. */
  ghost predicate Chosen(items: seq<Priced>, q: Params, p: Priced) {
    if Given(q.scheduleId) then
      && p in items && Id(p) == q.scheduleId.value
      && (q.version.Some? ==> p.schedule.version == q.version.value)
    else MostSpecific(items, q, p)
  }

  /** Resolution yields the chosen schedule. It yields nothing if the named one is not there, or if none
      matches; and it throws exactly if none was named and some match, but none is the most specific. */
  lemma ResolvesMostSpecific(items: seq<Priced>, q: Params, p: Priced)
    requires DistinctSchedules(items)
    ensures Resolve(items, q) == Success(Some(p)) <==> Chosen(items, q, p)
    ensures Resolve(items, q) == Success(None)
       <==> if Given(q.scheduleId) then !exists o :: Chosen(items, q, o)
            else forall o :: o in items ==> !Candidate(o, q)
    ensures Resolve(items, q).Failure?
       <==> && !Given(q.scheduleId)
            && (exists o :: o in items && Candidate(o, q))
            && !exists o :: Chosen(items, q, o)
  {
    hide MostSpecific, Candidate;
    if Given(q.scheduleId) {
      forall o
        ensures Lookup(items, q.scheduleId.value) == Some(o) <==> o in items && Id(o) == q.scheduleId.value
      {
        LookupFinds(items, q.scheduleId.value, o);
      }
      var found := Lookup(items, q.scheduleId.value);
      if Resolve(items, q) != Success(None) {
        assert Chosen(items, q, found.value);
      }
    } else {
      MatchResolves(items, q, p);
      forall o ensures Chosen(items, q, o) <==> MostSpecific(items, q, o) {
      }
      hide Chosen, Resolve;
    }
  }

  lemma SameChosen(items: seq<Priced>, others: seq<Priced>, q: Params, p: Priced)
    requires forall o :: o in items <==> o in others
    ensures Chosen(items, q, p) <==> Chosen(others, q, p)
  {
    hide Candidate, MoreSpecific, SpecificityOf;
  }

  /** The order in which schedules were added does not matter. */
  lemma ResolutionIgnoresOrder(items: seq<Priced>, others: seq<Priced>, q: Params)
    requires DistinctSchedules(items) && multiset(items) == multiset(others)
    ensures Resolve(items, q).Failure? == Resolve(others, q).Failure?
    ensures Resolve(items, q).Success? ==> Resolve(items, q) == Resolve(others, q)
  {
    hide Resolve, Candidate, MoreSpecific, Chosen;
    KeysRearranged(Id, items, others);
    forall p ensures p in items <==> p in others {
      assert p in items <==> p in multiset(items);
      assert p in others <==> p in multiset(others);
    }
    forall p
      ensures Chosen(items, q, p) <==> Chosen(others, q, p)
      ensures Resolve(items, q) == Success(Some(p)) <==> Chosen(items, q, p)
      ensures Resolve(others, q) == Success(Some(p)) <==> Chosen(others, q, p)
    {
      SameChosen(items, others, q, p);
      ResolvesMostSpecific(items, q, p);
      ResolvesMostSpecific(others, q, p);
    }
    var any := Priced(Schedule("", "", None, None, None, None, None, "", Draft, 0, None, 0), []);
    ResolvesMostSpecific(items, q, any);
    ResolvesMostSpecific(others, q, any);
  }

  // ---------------------------------------------------------------- schedules for another model

  /** The schedule names another canonical model than the caller. */
  predicate OfAnotherModel(s: Schedule, q: Params) {
    Given(s.canonicalModelId) && Given(q.canonicalModelId)
    && Lower(s.canonicalModelId.value) != Lower(q.canonicalModelId.value)
  }

  /** Route before credential before provider model before region. */
  predicate Outranks(a: Specificity, b: Specificity) {
    if a.route != b.route then a.route
    else if a.credential != b.credential then a.credential
    else if a.model != b.model then a.model
    else a.region && !b.region
  }

  /** The canonical model is the one level that rejects nothing: a schedule for another model is
      resolved exactly if it matches otherwise and outranks whatever else matches, the caller's own
      model included; or if it is the one named. */
  lemma AnotherModelResolves(items: seq<Priced>, q: Params, p: Priced)
    requires DistinctSchedules(items) && OfAnotherModel(p.schedule, q)
    ensures Resolve(items, q) == Success(Some(p))
       <==> if Given(q.scheduleId) then Chosen(items, q, p)
            else
              && p in items && Effective(p.schedule, q) && !Mismatched(p.schedule, q)
              && forall o :: o in items && Effective(o.schedule, q) && !Mismatched(o.schedule, q) && o != p ==>
                   Outranks(SpecificityOf(p.schedule, q), SpecificityOf(o.schedule, q))
  {
    hide Resolve, Score, Mismatched, Effective, Lower;
    ResolvesMostSpecific(items, q, p);
    forall o ensures Candidate(o, q) <==> Effective(o.schedule, q) && !Mismatched(o.schedule, q) {
      ScoreIsLexicographic(o.schedule, o.schedule, q);
    }
    hide Candidate;
    forall b: Specificity
      ensures MoreSpecific(SpecificityOf(p.schedule, q), b) <==> Outranks(SpecificityOf(p.schedule, q), b)
    {
    }
  }

  function ForModel(id: string, model: string, region: Option<string>): Priced {
    Priced(Schedule(id, "p", None, Some(model), None, region, None, "USD", Active, 0, None, 1), [])
  }

  /** A call for one model in a region is priced by the region's schedule for another model, although
      there is one for its own. */
  lemma AnotherModelPreferred(date: nat)
    ensures var own, other := ForModel("own", "gpt", None), ForModel("other", "gemini", Some("us"));
            var q := Params("p", None, Some("gpt"), None, Some("us"), None, None, date, None, None);
            OfAnotherModel(other.schedule, q) && Resolve([own, other], q) == Success(Some(other))
  {
    hide Resolve;
    var own, other := ForModel("own", "gpt", None), ForModel("other", "gemini", Some("us"));
    var q := Params("p", None, Some("gpt"), None, Some("us"), None, None, date, None, None);
    AlreadyLower("gpt");
    AlreadyLower("gemini");
    AnotherModelResolves([own, other], q, other);
  }

  // ---------------------------------------------------------------- the resolver object

  datatype ScheduleError = MissingId | EmptyPeriod | BadVersion

  class ProviderPriceResolver {
    var schedules: seq<Priced>

    constructor ()
      ensures schedules == []
    {
      schedules := [];
    }

    static function Validate(s: Schedule): Option<ScheduleError> {
      if s.id == "" || s.providerId == "" then Some(MissingId)
      else if s.effectiveTo.Some? && s.effectiveTo.value <= s.effectiveFrom then Some(EmptyPeriod)
      else if s.version <= 0 then Some(BadVersion)
      else None
    }

    /** A schedule with a known id takes the place of the one before. */
    method AddSchedule(item: Priced) returns (error: Option<ScheduleError>)
      requires DistinctSchedules(schedules)
      modifies this
      ensures error == Validate(item.schedule)
      ensures error.Some? ==> schedules == old(schedules)
      ensures DistinctSchedules(schedules)
      ensures error.None? ==> item in schedules
      ensures error.None? ==>
                forall p: Priced :: Id(p) != Id(item) ==> (p in schedules <==> p in old(schedules))
    {
      error := Validate(item.schedule);
      if error.Some? {
        return;
      }
      var i := 0;
      while i < |schedules| && Id(schedules[i]) != Id(item)
        invariant 0 <= i <= |schedules| && schedules == old(schedules)
        invariant forall j :: 0 <= j < i ==> Id(schedules[j]) != Id(item)
      {
        i := i + 1;
      }
      if i < |schedules| {
        schedules := schedules[i := item];
        assert schedules[i] == item;
        forall p: Priced | Id(p) != Id(item) ensures p in schedules <==> p in old(schedules) {
          if p in old(schedules) {
            var j :| 0 <= j < |old(schedules)| && old(schedules)[j] == p;
            assert schedules[j] == p;
          }
        }
      } else {
        schedules := schedules + [item];
        assert schedules[|schedules| - 1] == item;
      }
    }

    method ResolveSchedule(q: Params) returns (r: Result<Option<Priced>, ResolutionError>)
      requires DistinctSchedules(schedules)
      ensures r == Resolve(schedules, q)
      ensures r.Success? && r.value.Some? ==> Chosen(schedules, q, r.value.value)
      ensures (exists p :: Chosen(schedules, q, p)) ==> r.Success? && r.value.Some?
    {
      r := Resolve(schedules, q);
      hide Resolve, Chosen;
      forall p ensures r == Success(Some(p)) <==> Chosen(schedules, q, p) {
        ResolvesMostSpecific(schedules, q, p);
      }
    }
  }
}
