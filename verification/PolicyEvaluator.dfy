/** Evaluation of requests and routes against compiled constraints
    (packages/policy/src/evaluator.ts, packages/policy/src/region-groups.ts). */
module PolicyEvaluator {
  import opened Collections
  import opened Text
  import opened PolicyCompiler

  datatype ReasoningRequest = ReasoningRequest(maxTokens: Option<real>)

  datatype Context = Context(
    canonicalId: string, family: Option<string>, category: Option<string>,
    inputModalities: Option<seq<string>>, outputModalities: Option<seq<string>>,
    tools: Option<seq<string>>, parallelToolCalls: bool, structuredOutput: bool,
    reasoning: Option<ReasoningRequest>, maxTokens: Option<real>, temperature: Option<real>,
    dataClassification: Option<string>)

  datatype Candidate = Candidate(
    routeId: string, providerId: string, region: Option<string>,
    tags: Option<seq<string>>, complianceTags: Option<seq<string>>, estimatedCost: Option<real>)

  datatype DenialCode =
    | ModelDenied | ModelCategoryDenied | ModelFamilyDenied | ProviderDenied | RegionDenied
    | DataResidencyDenied | ModalityDenied | ToolsDenied | ToolDenied | StructuredOutputDenied
    | ReasoningDenied | RequestLimitDenied | CostPolicyDenied | DataPolicyDenied | ProviderTagDenied

  // ---------------------------------------------------------------- regions

  /** The regions a group name stands for. */
  function RegionGroup(name: string): Option<set<string>> {
    if name == "EU" then
      Some({"eu", "eu-west-1", "eu-west-2", "eu-west-3", "eu-central-1", "eu-central-2", "eu-north-1",
            "eu-south-1", "eu-south-2", "europe-west1", "europe-west2", "europe-west3", "europe-west4",
            "europe-west6", "europe-west9", "europe-north1", "europe-central2"})
    else if name == "US" then
      Some({"us", "us-east-1", "us-east-2", "us-west-1", "us-west-2", "us-central1", "us-east4", "us-west4"})
    else if name == "APAC" then
      Some({"apac", "ap-southeast-1", "ap-southeast-2", "ap-southeast-3", "ap-northeast-1", "ap-northeast-2",
            "ap-northeast-3", "ap-east-1", "asia-east1", "asia-east2", "asia-northeast1", "asia-northeast2",
            "asia-northeast3", "asia-southeast1", "asia-southeast2"})
    else if name == "IN" then
      Some({"in", "india", "ap-south-1", "ap-south-2", "asia-south1", "asia-south2"})
    else if name == "GLOBAL" then Some({"global"})
    else None
  }

  predicate RegionMatches(candidate: string, target: string) {
    var c := Lower(candidate);
    match RegionGroup(Upper(target))
    case Some(regions) => c in regions
    case None => c == Lower(target) || Lower(target) == "global" || c == "global"
  }

  /** Whether the entry `e` of a list for dimension `d` covers the (case-folded) name `x`: model
      entries cover every id they are a prefix of, region entries every region of their group. */
  predicate Matches(d: Dimension, e: string, x: string) {
    match d
    case Model => Norm(d, e) <= x
    case Region => RegionMatches(x, e)
    case _ => Norm(d, e) == x
  }

  lemma MatchesNorm(d: Dimension, e: string, x: string)
    ensures Matches(d, Norm(d, e), x) == Matches(d, e, x)
  {
    hide RegionGroup;
    CaseFolding(e);
  }

  // ---------------------------------------------------------------- evaluation

  predicate Listed(d: Dimension, names: seq<string>, x: string) {
    exists i :: 0 <= i < |names| && Matches(d, names[i], x)
  }

  predicate OnDenylist(c: Constraints, d: Dimension, x: string) {
    d in c.denied && Listed(d, c.denied[d], x)
  }

  /** An allowlist that is present but empty restricts nothing. */
  predicate OffAllowlist(c: Constraints, d: Dimension, x: string) {
    d in c.allowed && |c.allowed[d]| > 0 && !Listed(d, c.allowed[d], x)
  }

  predicate AnyListed(c: Constraints, d: Dimension, xs: seq<string>) {
    exists i :: 0 <= i < |xs| && OnDenylist(c, d, Norm(d, xs[i]))
  }

  predicate AnyOutside(c: Constraints, d: Dimension, xs: seq<string>) {
    exists i :: 0 <= i < |xs| && OffAllowlist(c, d, Norm(d, xs[i]))
  }

  predicate SwitchedOff(c: Constraints, f: Feature) {
    f in c.features && !c.features[f]
  }

  predicate Exceeds(c: Constraints, l: Limit, n: real) {
    l in c.ceilings && n > c.ceilings[l]
  }

  function ToolNames(ctx: Context): seq<string> {
    var tools := ctx.tools.GetOr([]);
    seq(|tools|, i requires 0 <= i < |tools| => Lower(Trim(tools[i])))
  }

  /** Tools without a name are not checked. */
  predicate ToolRefused(c: Constraints, name: string) {
    name != "" && (OnDenylist(c, ToolName, name) || OffAllowlist(c, ToolName, name))
  }

  /** A family or category that is missing or empty is not checked. */
  function Checked(name: Option<string>): Option<string> {
    if name.Some? && name.value != "" then Some(Lower(name.value)) else None
  }

  /** The first check that fails, in the order they are made. */
  function EvaluateRequest(ctx: Context, c: Constraints): Option<DenialCode> {
    var id := Lower(ctx.canonicalId);
    var family := Checked(ctx.family);
    var category := Checked(ctx.category);
    var inputs := ctx.inputModalities.GetOr(["text"]);
    var outputs := ctx.outputModalities.GetOr(["text"]);
    if OnDenylist(c, Model, id) then Some(ModelDenied)
    else if family.Some? && OnDenylist(c, ModelFamily, family.value) then Some(ModelFamilyDenied)
    else if category.Some? && OnDenylist(c, ModelCategory, category.value) then Some(ModelCategoryDenied)
    else if OffAllowlist(c, Model, id) then Some(ModelDenied)
    else if family.Some? && OffAllowlist(c, ModelFamily, family.value) then Some(ModelFamilyDenied)
    else if category.Some? && OffAllowlist(c, ModelCategory, category.value) then Some(ModelCategoryDenied)
    else if AnyListed(c, InputModality, inputs) then Some(ModalityDenied)
    else if AnyOutside(c, InputModality, inputs) then Some(ModalityDenied)
    else if AnyListed(c, OutputModality, outputs) then Some(ModalityDenied)
    else EvaluateUse(ctx, c)
  }

  function EvaluateUse(ctx: Context, c: Constraints): Option<DenialCode> {
    var names := ToolNames(ctx);
    if names != [] && SwitchedOff(c, Tools) then Some(ToolsDenied)
    else if names != [] && Exceeds(c, MaxTools, |names| as real) then Some(RequestLimitDenied)
    else if names != [] && ctx.parallelToolCalls && SwitchedOff(c, ParallelTools) then Some(ToolsDenied)
    else if exists i :: 0 <= i < |names| && ToolRefused(c, names[i]) then Some(ToolDenied)
    else if ctx.structuredOutput && SwitchedOff(c, StructuredOutput) then Some(StructuredOutputDenied)
    else if ctx.reasoning.Some? && SwitchedOff(c, Reasoning) then Some(ReasoningDenied)
    else if ctx.reasoning.Some? && ctx.reasoning.value.maxTokens.Some?
            && Exceeds(c, MaxReasoningTokens, ctx.reasoning.value.maxTokens.value) then Some(RequestLimitDenied)
    else if ctx.maxTokens.Some? && Exceeds(c, MaxOutputTokens, ctx.maxTokens.value) then Some(RequestLimitDenied)
    else if TemperatureOut(ctx, c) then Some(RequestLimitDenied)
    else if ctx.dataClassification.Some? && ctx.dataClassification.value != ""
            && (OnDenylist(c, DataClassification, ctx.dataClassification.value)
                || OffAllowlist(c, DataClassification, ctx.dataClassification.value)) then Some(DataPolicyDenied)
    else None
  }

  predicate TemperatureOut(ctx: Context, c: Constraints) {
    ctx.temperature.Some? &&
    ((c.temperatureMin.Some? && ctx.temperature.value < c.temperatureMin.value)
     || (c.temperatureMax.Some? && ctx.temperature.value > c.temperatureMax.value))
  }

  function RegionOf(k: Candidate): string {
    if k.region.Some? && k.region.value != "" then Lower(k.region.value) else "global"
  }

  predicate BreaksResidency(c: Constraints, region: string) {
    c.requiredDataResidency.Some? && c.requiredDataResidency.value != ""
    && !RegionMatches(region, c.requiredDataResidency.value)
  }

  predicate Carries(k: Candidate, tag: string) {
    exists t :: t in k.tags.GetOr([]) + k.complianceTags.GetOr([]) && Lower(t) == Lower(tag)
  }

  predicate LacksTag(c: Constraints, k: Candidate) {
    c.requiredProviderTags.Some?
    && exists i :: 0 <= i < |c.requiredProviderTags.value| && !Carries(k, c.requiredProviderTags.value[i])
  }

  predicate TooCostly(c: Constraints, k: Candidate) {
    MaxCostPerRequest in c.ceilings
    && (k.estimatedCost.None? || k.estimatedCost.value > c.ceilings[MaxCostPerRequest])
  }

  function EvaluateRoute(k: Candidate, c: Constraints): Option<DenialCode> {
    var provider := Lower(k.providerId);
    var region := RegionOf(k);
    if OnDenylist(c, Provider, provider) then Some(ProviderDenied)
    else if OffAllowlist(c, Provider, provider) then Some(ProviderDenied)
    else if OnDenylist(c, Region, region) then Some(RegionDenied)
    else if BreaksResidency(c, region) then Some(DataResidencyDenied)
    else if OffAllowlist(c, Region, region) then Some(RegionDenied)
    else if LacksTag(c, k) then Some(ProviderTagDenied)
    else if TooCostly(c, k) then Some(CostPolicyDenied)
    else None
  }

  datatype Exclusion = Exclusion(candidate: Candidate, denialCode: DenialCode)

  /** Splits the candidates: those let through keep their order, every other one is excluded
      with the code of its own evaluation. */
  method EvaluateRoutesBatch(candidates: seq<Candidate>, c: Constraints)
    returns (eligible: seq<Candidate>, excluded: seq<Exclusion>)
    ensures eligible == Eligible(candidates, c)
    ensures excluded == Excluded(candidates, c)
  {
    eligible, excluded := [], [];
    for i := 0 to |candidates|
      invariant eligible == Eligible(candidates[..i], c)
      invariant excluded == Excluded(candidates[..i], c)
    {
      assert candidates[..i + 1][..i] == candidates[..i];
      var code := EvaluateRoute(candidates[i], c);
      if code.None? {
        eligible := eligible + [candidates[i]];
      } else {
        excluded := excluded + [Exclusion(candidates[i], code.value)];
      }
    }
    assert candidates[..|candidates|] == candidates;
  }

  function Eligible(ks: seq<Candidate>, c: Constraints): seq<Candidate> {
    if ks == [] then []
    else
      var k := ks[|ks| - 1];
      Eligible(ks[..|ks| - 1], c) + if EvaluateRoute(k, c).None? then [k] else []
  }

  function Excluded(ks: seq<Candidate>, c: Constraints): seq<Exclusion> {
    if ks == [] then []
    else
      var k := ks[|ks| - 1];
      var code := EvaluateRoute(k, c);
      Excluded(ks[..|ks| - 1], c) + if code.None? then [] else [Exclusion(k, code.value)]
  }

  function Candidates(xs: seq<Exclusion>): (r: seq<Candidate>)
    ensures |r| == |xs|
  {
    seq(|xs|, i requires 0 <= i < |xs| => xs[i].candidate)
  }

  lemma CandidatesAppend(xs: seq<Exclusion>, x: Exclusion)
    ensures Candidates(xs + [x]) == Candidates(xs) + [x.candidate]
  {
  }

  /** Every candidate ends up on exactly one side, as often as it was given, ... */
  lemma {:induction false} BatchPartitions(ks: seq<Candidate>, c: Constraints)
    ensures multiset(Eligible(ks, c)) + multiset(Candidates(Excluded(ks, c))) == multiset(ks)
  {
    hide EvaluateRoute, Candidates;
    if ks == [] {
      assert Candidates([]) == [];
    } else {
      var front, k := ks[..|ks| - 1], ks[|ks| - 1];
      assert ks == front + [k];
      BatchPartitions(front, c);
      var code := EvaluateRoute(k, c);
      if code.Some? {
        CandidatesAppend(Excluded(front, c), Exclusion(k, code.value));
        assert Eligible(ks, c) == Eligible(front, c);
      } else {
        assert Excluded(ks, c) == Excluded(front, c);
      }
    }
  }

  /** ... and on the side its own evaluation says, with the code of that evaluation. */
  lemma {:induction false} BatchDecides(ks: seq<Candidate>, c: Constraints, k: Candidate, code: DenialCode)
    ensures k in Eligible(ks, c) <==> k in ks && EvaluateRoute(k, c).None?
    ensures Exclusion(k, code) in Excluded(ks, c) <==> k in ks && EvaluateRoute(k, c) == Some(code)
  {
    hide EvaluateRoute;
    if ks != [] {
      BatchDecides(ks[..|ks| - 1], c, k, code);
      assert ks == ks[..|ks| - 1] + [ks[|ks| - 1]];
    }
  }
}
