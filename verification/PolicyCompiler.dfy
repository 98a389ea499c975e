/** Compilation of hierarchical governance policies into flat constraints
    (packages/policy/src/policy-compiler.ts). */
module PolicyCompiler {
  import opened Collections
  import opened Sorting
  import opened Text

  datatype Scope = Global | Organization | Workspace | ApiKey

  datatype Effect = Allow | Deny

  datatype Operator =
    | Equals | NotEquals | In | NotIn | Contains
    | LessThan | LessThanOrEqual | GreaterThan | GreaterThanOrEqual

  /** Targets whose rules list names to allow or deny. */
  datatype Dimension =
    | Model | ModelFamily | ModelCategory | Provider | Region
    | InputModality | OutputModality | ToolName | DataClassification

  /** Targets whose rules switch a feature on or off. */
  datatype Feature = Tools | ParallelTools | StructuredOutput | Reasoning

  /** Targets whose rules set a ceiling. */
  datatype Limit = MaxTools | MaxReasoningTokens | MaxOutputTokens | MaxCostPerRequest

  datatype Target =
    | Names(dimension: Dimension)
    | Switch(feature: Feature)
    | Ceiling(limit: Limit)
    | DataResidency
    | ProviderTag
    | Temperature

  /** A rule's value as the compiler reads it: as a list of strings, as one string, as a truth
      value, and as a number unless it is not one. */
  datatype Value = Value(texts: seq<string>, text: string, truthy: bool, number: Option<real>)

  datatype Rule = Rule(target: Target, effect: Effect, operator: Operator, value: Value)

  datatype HierarchyItem = HierarchyItem(
    scopeType: Scope, scopeId: Option<string>, policyId: string, version: int, rules: seq<Rule>)

  /** The compiled constraints. An absent key is an undefined field. */
  datatype Constraints = Constraints(
    allowed: map<Dimension, seq<string>>,
    denied: map<Dimension, seq<string>>,
    requiredDataResidency: Option<string>,
    requiredProviderTags: Option<seq<string>>,
    features: map<Feature, bool>,
    ceilings: map<Limit, real>,
    temperatureMin: Option<real>,
    temperatureMax: Option<real>)

  /** The constraints a request may bring along; the compiler reads these fields only. */
  datatype RequestConstraints = RequestConstraints(
    deniedModels: Option<seq<string>>, allowedModels: Option<seq<string>>,
    deniedProviders: Option<seq<string>>, allowedProviders: Option<seq<string>>,
    deniedRegions: Option<seq<string>>, allowedRegions: Option<seq<string>>,
    requiredDataResidency: Option<string>,
    maxEstimatedCostPerRequest: Option<real>)

  datatype EffectivePolicy = EffectivePolicy(
    policyVersions: map<string, int>, rules: seq<Rule>, constraints: Constraints)

  function Unconstrained(): Constraints {
    Constraints(map[], map[], None, None, map[], map[], None, None)
  }

  // ---------------------------------------------------------------- lists of names

  /** Names are compared without regard to case, data classifications exactly. */
  function Norm(d: Dimension, s: string): string {
    if d == DataClassification then s else Lower(s)
  }

  ghost function NormSet(d: Dimension, s: seq<string>): set<string> {
    set e | e in s :: Norm(d, e)
  }

  function Lookup<K, V>(m: map<K, V>, k: K): Option<V> {
    if k in m then Some(m[k]) else None
  }

  function Keep(d: Dimension, current: seq<string>, target: set<string>): (r: seq<string>)
    ensures forall e :: e in r <==> e in current && Norm(d, e) in target
  {
    if current == [] then []
    else
      assert current == [current[0]] + current[1..];
      (if Norm(d, current[0]) in target then [current[0]] else []) + Keep(d, current[1..], target)
  }

  function IntersectSets(d: Dimension, current: Option<seq<string>>, target: seq<string>): (r: seq<string>)
    ensures NormSet(d, r) == (match current
                              case None => NormSet(d, target)
                              case Some(c) => NormSet(d, c) * NormSet(d, target))
  {
    match current
    case None => target
    case Some(c) => Keep(d, c, set e | e in target :: Norm(d, e))
  }

  /** Adding to a set that remembers insertion order. */
  function AddNew(s: seq<string>, e: string): seq<string> {
    if e in s then s else s + [e]
  }

  function AddAll(d: Dimension, s: seq<string>, xs: seq<string>): seq<string> {
    if xs == [] then s else AddNew(AddAll(d, s, xs[..|xs| - 1]), Norm(d, xs[|xs| - 1]))
  }

  function Union(d: Dimension, current: Option<seq<string>>, target: seq<string>): seq<string> {
    AddAll(d, AddAll(d, [], current.GetOr([])), target)
  }

  predicate NoRepeats(s: seq<string>) {
    forall i, j :: 0 <= i < j < |s| ==> s[i] != s[j]
  }

  lemma NormNorm(d: Dimension, s: string)
    ensures Norm(d, Norm(d, s)) == Norm(d, s)
  {
    CaseFolding(s);
  }

  lemma {:induction false} AddAllMeaning(d: Dimension, s: seq<string>, xs: seq<string>)
    requires NoRepeats(s)
    ensures NoRepeats(AddAll(d, s, xs))
    ensures forall e :: e in AddAll(d, s, xs) <==> e in s || e in NormSet(d, xs)
  {
    if xs != [] {
      AddAllMeaning(d, s, xs[..|xs| - 1]);
      assert xs == xs[..|xs| - 1] + [xs[|xs| - 1]];
    }
  }

  /** A union holds exactly the names of both lists, folded to one case, each once. */
  lemma UnionMeaning(d: Dimension, current: Option<seq<string>>, target: seq<string>)
    ensures NoRepeats(Union(d, current, target))
    ensures forall e :: e in Union(d, current, target) <==> e in NormSet(d, current.GetOr([])) + NormSet(d, target)
    ensures NormSet(d, Union(d, current, target)) == NormSet(d, current.GetOr([])) + NormSet(d, target)
  {
    hide AddAll;
    AddAllMeaning(d, [], current.GetOr([]));
    AddAllMeaning(d, AddAll(d, [], current.GetOr([])), target);
    hide NormSet;
    NormedSet(d, current.GetOr([]), target, Union(d, current, target));
  }

  lemma NormedSet(d: Dimension, a: seq<string>, b: seq<string>, r: seq<string>)
    requires forall e :: e in r <==> e in NormSet(d, a) + NormSet(d, b)
    ensures NormSet(d, r) == NormSet(d, a) + NormSet(d, b)
  {
    forall e | e in NormSet(d, a) + NormSet(d, b) ensures Norm(d, e) == e {
      var x :| x in a + b && e == Norm(d, x);
      NormNorm(d, x);
    }
  }

  method UnionSets(d: Dimension, current: Option<seq<string>>, target: seq<string>) returns (r: seq<string>)
    ensures r == Union(d, current, target)
    ensures NoRepeats(r)
    ensures forall e :: e in r <==> e in NormSet(d, current.GetOr([])) + NormSet(d, target)
  {
    hide NormSet;
    var known := current.GetOr([]);
    r := [];
    for i := 0 to |known|
      invariant r == AddAll(d, [], known[..i])
    {
      assert known[..i + 1][..i] == known[..i];
      r := AddNew(r, Norm(d, known[i]));
    }
    assert known[..|known|] == known;
    for i := 0 to |target|
      invariant r == AddAll(d, AddAll(d, [], known), target[..i])
    {
      assert target[..i + 1][..i] == target[..i];
      r := AddNew(r, Norm(d, target[i]));
    }
    assert target[..|target|] == target;
    UnionMeaning(d, current, target);
  }

  // ---------------------------------------------------------------- one rule

  function DenyNames(c: Constraints, d: Dimension, names: seq<string>): Constraints {
    c.(denied := c.denied[d := Union(d, Lookup(c.denied, d), names)])
  }

  function AllowNames(c: Constraints, d: Dimension, names: seq<string>): Constraints {
    c.(allowed := c.allowed[d := IntersectSets(d, Lookup(c.allowed, d), names)])
  }

  function Lowest(current: Option<real>, n: real): real {
    if current.Some? && current.value < n then current.value else n
  }

  predicate RequiresTag(r: Rule) {
    r.target.ProviderTag? && (r.effect.Allow? || r.operator.In? || r.operator.Equals?)
  }

  /** The effect of one rule. Tags share the case folding of provider names. */
  function Apply(c: Constraints, r: Rule): Constraints {
    match r.target
    case Names(d) =>
      if r.effect.Deny? then DenyNames(c, d, r.value.texts) else AllowNames(c, d, r.value.texts)
    case Switch(f) =>
      if r.effect.Deny? || !r.value.truthy then c.(features := c.features[f := false])
      else if f !in c.features then c.(features := c.features[f := true])
      else c
    case Ceiling(l) =>
      if r.value.number.None? then c
      else c.(ceilings := c.ceilings[l := Lowest(Lookup(c.ceilings, l), r.value.number.value)])
    case DataResidency =>
      if r.effect.Deny? then DenyNames(c, Region, r.value.texts)
      else c.(requiredDataResidency := Some(r.value.text))
    case ProviderTag =>
      if RequiresTag(r) then
        c.(requiredProviderTags := Some(Union(Provider, c.requiredProviderTags, r.value.texts)))
      else c
    case Temperature => c
  }

  method ApplyRule(c: Constraints, r: Rule) returns (n: Constraints)
    ensures n == Apply(c, r)
  {
    n := c;
    match r.target {
      case Names(d) =>
        if r.effect.Deny? {
          var names := UnionSets(d, Lookup(c.denied, d), r.value.texts);
          n := n.(denied := n.denied[d := names]);
        } else {
          n := n.(allowed := n.allowed[d := IntersectSets(d, Lookup(c.allowed, d), r.value.texts)]);
        }
      case Switch(f) =>
        if r.effect.Deny? || !r.value.truthy {
          n := n.(features := n.features[f := false]);
        } else if f !in c.features {
          n := n.(features := n.features[f := true]);
        }
      case Ceiling(l) =>
        if r.value.number.Some? {
          var num := r.value.number.value;
          n := n.(ceilings := n.ceilings[l := if l in c.ceilings then Min(c.ceilings[l], num) else num]);
        }
      case DataResidency =>
        if r.effect.Deny? {
          var names := UnionSets(Region, Lookup(c.denied, Region), r.value.texts);
          n := n.(denied := n.denied[Region := names]);
        } else {
          n := n.(requiredDataResidency := Some(r.value.text));
        }
      case ProviderTag =>
        if r.effect.Allow? || r.operator.In? || r.operator.Equals? {
          var tags := UnionSets(Provider, c.requiredProviderTags, r.value.texts);
          n := n.(requiredProviderTags := Some(tags));
        }
      case Temperature =>
    }
  }

  function Min(a: real, b: real): real {
    if a <= b then a else b
  }

  // ---------------------------------------------------------------- a request's own constraints

  function NarrowNames(c: Constraints, d: Dimension, denied: Option<seq<string>>, allowed: Option<seq<string>>)
    : Constraints
  {
    var c1 := if denied.Some? then DenyNames(c, d, denied.value) else c;
    if allowed.Some? then AllowNames(c1, d, allowed.value) else c1
  }

  function Narrow(c: Constraints, request: Option<RequestConstraints>): Constraints {
    match request
    case None => c
    case Some(q) =>
      var c1 := NarrowNames(c, Model, q.deniedModels, q.allowedModels);
      var c2 := NarrowNames(c1, Provider, q.deniedProviders, q.allowedProviders);
      var c3 := NarrowNames(c2, Region, q.deniedRegions, q.allowedRegions);
      var c4 := if q.requiredDataResidency.Some? && q.requiredDataResidency.value != "" then
                  c3.(requiredDataResidency := q.requiredDataResidency)
                else c3;
      if q.maxEstimatedCostPerRequest.Some? then
        c4.(ceilings := c4.ceilings[MaxCostPerRequest :=
          Lowest(Lookup(c4.ceilings, MaxCostPerRequest), q.maxEstimatedCostPerRequest.value)])
      else c4
  }

  // ---------------------------------------------------------------- a hierarchy

  function Precedence(s: Scope): nat {
    match s
    case Global => 0
    case Organization => 1
    case Workspace => 2
    case ApiKey => 3
  }

  predicate Before(a: HierarchyItem, b: HierarchyItem) {
    Precedence(a.scopeType) <= Precedence(b.scopeType)
  }

  function RulesOf(items: seq<HierarchyItem>): seq<Rule> {
    if items == [] then [] else RulesOf(items[..|items| - 1]) + items[|items| - 1].rules
  }

  function VersionsOf(items: seq<HierarchyItem>): map<string, int> {
    if items == [] then map[]
    else VersionsOf(items[..|items| - 1])[items[|items| - 1].policyId := items[|items| - 1].version]
  }

  function ApplyAll(c: Constraints, rules: seq<Rule>): Constraints {
    if rules == [] then c else Apply(ApplyAll(c, rules[..|rules| - 1]), rules[|rules| - 1])
  }

  function Compile(hierarchy: seq<HierarchyItem>, request: Option<RequestConstraints>): EffectivePolicy {
    var sorted := Sort(Before, hierarchy);
    EffectivePolicy(VersionsOf(sorted), RulesOf(sorted),
                    Narrow(ApplyAll(Unconstrained(), RulesOf(sorted)), request))
  }

  lemma {:induction false} ApplyAllConcat(c: Constraints, a: seq<Rule>, b: seq<Rule>)
    ensures ApplyAll(c, a + b) == ApplyAll(ApplyAll(c, a), b)
  {
    if b == [] {
      assert a + b == a;
    } else {
      ApplyAllConcat(c, a, b[..|b| - 1]);
      assert (a + b)[..|a + b| - 1] == a + b[..|b| - 1];
    }
  }

  lemma ItemsSnoc(items: seq<HierarchyItem>, i: HierarchyItem)
    ensures RulesOf(items + [i]) == RulesOf(items) + i.rules
    ensures VersionsOf(items + [i]) == VersionsOf(items)[i.policyId := i.version]
  {
    assert (items + [i])[..|items|] == items;
  }

  method ApplyRules(c: Constraints, rules: seq<Rule>) returns (n: Constraints)
    ensures n == ApplyAll(c, rules)
  {
    hide Apply;
    n := c;
    for j := 0 to |rules|
      invariant n == ApplyAll(c, rules[..j])
    {
      assert rules[..j + 1][..j] == rules[..j];
      n := ApplyRule(n, rules[j]);
    }
    assert rules[..|rules|] == rules;
  }

  method CompileEffectivePolicy(hierarchy: seq<HierarchyItem>, request: Option<RequestConstraints>)
    returns (p: EffectivePolicy)
    ensures p == Compile(hierarchy, request)
  {
    hide ApplyAll, RulesOf, VersionsOf, Narrow, Before;
    var sorted := Sort(Before, hierarchy);
    var versions: map<string, int> := map[];
    var allRules: seq<Rule> := [];
    var constraints := Unconstrained();
    NothingToCompile();
    for i := 0 to |sorted|
      invariant versions == VersionsOf(sorted[..i])
      invariant allRules == RulesOf(sorted[..i])
      invariant constraints == ApplyAll(Unconstrained(), allRules)
    {
      var item := sorted[i];
      assert sorted[..i + 1] == sorted[..i] + [item];
      ItemsSnoc(sorted[..i], item);
      versions := versions[item.policyId := item.version];
      ApplyAllConcat(Unconstrained(), allRules, item.rules);
      allRules := allRules + item.rules;
      constraints := ApplyRules(constraints, item.rules);
    }
    assert sorted[..|sorted|] == sorted;
    constraints := NarrowByRequest(constraints, request);
    p := EffectivePolicy(versions, allRules, constraints);
  }

  lemma NothingToCompile()
    ensures RulesOf([]) == [] && VersionsOf([]) == map[] && ApplyAll(Unconstrained(), []) == Unconstrained()
  {
  }

  method NarrowNamesByRequest(
    c: Constraints, d: Dimension, denied: Option<seq<string>>, allowed: Option<seq<string>>)
    returns (n: Constraints)
    ensures n == NarrowNames(c, d, denied, allowed)
  {
    n := c;
    if denied.Some? {
      var names := UnionSets(d, Lookup(n.denied, d), denied.value);
      n := n.(denied := n.denied[d := names]);
    }
    if allowed.Some? {
      n := n.(allowed := n.allowed[d := IntersectSets(d, Lookup(n.allowed, d), allowed.value)]);
    }
  }

  /** A request's constraints act as if they were rules of one more scope. */
  method NarrowByRequest(c: Constraints, request: Option<RequestConstraints>) returns (n: Constraints)
    ensures n == Narrow(c, request)
    ensures n == ApplyAll(c, RequestRules(request))
  {
    hide NarrowNames;
    n := c;
    if request.Some? {
      var q := request.value;
      n := NarrowNamesByRequest(n, Model, q.deniedModels, q.allowedModels);
      n := NarrowNamesByRequest(n, Provider, q.deniedProviders, q.allowedProviders);
      n := NarrowNamesByRequest(n, Region, q.deniedRegions, q.allowedRegions);
      if q.requiredDataResidency.Some? && q.requiredDataResidency.value != "" {
        n := n.(requiredDataResidency := q.requiredDataResidency);
      }
      if q.maxEstimatedCostPerRequest.Some? {
        var cost := q.maxEstimatedCostPerRequest.value;
        n := n.(ceilings := n.ceilings[MaxCostPerRequest :=
          if MaxCostPerRequest in n.ceilings then Min(n.ceilings[MaxCostPerRequest], cost) else cost]);
      }
    }
    RequestAsRules(c, request);
  }

  // ---------------------------------------------------------------- requests as rules

  function ListRule(d: Dimension, e: Effect, names: Option<seq<string>>): seq<Rule> {
    if names.None? then [] else [Rule(Names(d), e, In, Value(names.value, "", true, None))]
  }

  /** The rules that say the same as a request's constraints. */
  function RequestRules(request: Option<RequestConstraints>): seq<Rule> {
    match request
    case None => []
    case Some(q) =>
      ListRule(Model, Deny, q.deniedModels) + ListRule(Model, Allow, q.allowedModels)
      + ListRule(Provider, Deny, q.deniedProviders) + ListRule(Provider, Allow, q.allowedProviders)
      + ListRule(Region, Deny, q.deniedRegions) + ListRule(Region, Allow, q.allowedRegions)
      + (if q.requiredDataResidency.Some? && q.requiredDataResidency.value != "" then
           [Rule(DataResidency, Allow, Equals, Value([], q.requiredDataResidency.value, true, None))]
         else [])
      + (if q.maxEstimatedCostPerRequest.Some? then
           [Rule(Ceiling(MaxCostPerRequest), Allow, LessThanOrEqual, Value([], "", true, q.maxEstimatedCostPerRequest))]
         else [])
  }

  /** The rules in force: those of the hierarchy, outermost scope first, then the request's. */
  function RulesInForce(hierarchy: seq<HierarchyItem>, request: Option<RequestConstraints>): seq<Rule> {
    RulesOf(Sort(Before, hierarchy)) + RequestRules(request)
  }

  lemma ApplyNone(c: Constraints)
    ensures ApplyAll(c, []) == c
  {
  }

  lemma ApplyOne(c: Constraints, r: Rule)
    ensures ApplyAll(c, [r]) == Apply(c, r)
  {
    assert [r][..0] == [];
  }

  lemma ApplyListRules(c: Constraints, d: Dimension, denied: Option<seq<string>>, allowed: Option<seq<string>>)
    ensures ApplyAll(c, ListRule(d, Deny, denied) + ListRule(d, Allow, allowed)) == NarrowNames(c, d, denied, allowed)
  {
    var a, b := ListRule(d, Deny, denied), ListRule(d, Allow, allowed);
    ApplyAllConcat(c, a, b);
    if denied.Some? {
      ApplyOne(c, a[0]);
    }
    if allowed.Some? {
      ApplyOne(ApplyAll(c, a), b[0]);
    }
  }

  /** A request's constraints act exactly like rules of a scope below the API key. */
  lemma RequestAsRules(c: Constraints, request: Option<RequestConstraints>)
    ensures Narrow(c, request) == ApplyAll(c, RequestRules(request))
  {
    hide NarrowNames, ListRule, ApplyAll;
    ApplyNone(c);
    if request.Some? {
      var q := request.value;
      var m := ListRule(Model, Deny, q.deniedModels) + ListRule(Model, Allow, q.allowedModels);
      var p := ListRule(Provider, Deny, q.deniedProviders) + ListRule(Provider, Allow, q.allowedProviders);
      var g := ListRule(Region, Deny, q.deniedRegions) + ListRule(Region, Allow, q.allowedRegions);
      var s: seq<Rule> := if q.requiredDataResidency.Some? && q.requiredDataResidency.value != "" then
             [Rule(DataResidency, Allow, Equals, Value([], q.requiredDataResidency.value, true, None))]
           else [];
      var l: seq<Rule> := if q.maxEstimatedCostPerRequest.Some? then
             [Rule(Ceiling(MaxCostPerRequest), Allow, LessThanOrEqual,
                   Value([], "", true, q.maxEstimatedCostPerRequest))]
           else [];
      assert RequestRules(request) == m + p + g + s + l;
      ApplyListRules(c, Model, q.deniedModels, q.allowedModels);
      var c1 := ApplyAll(c, m);
      ApplyListRules(c1, Provider, q.deniedProviders, q.allowedProviders);
      var c2 := ApplyAll(c1, p);
      ApplyListRules(c2, Region, q.deniedRegions, q.allowedRegions);
      var c3 := ApplyAll(c2, g);
      ApplyAllConcat(c, m, p);
      ApplyAllConcat(c, m + p, g);
      ApplyAllConcat(c, m + p + g, s);
      ApplyAllConcat(c, m + p + g + s, l);
      ApplyNone(c3);
      if s != [] {
        ApplyOne(c3, s[0]);
      }
      var c4 := ApplyAll(c3, s);
      ApplyNone(c4);
      if l != [] {
        ApplyOne(c4, l[0]);
      }
    }
  }

  lemma CompileIsFold(hierarchy: seq<HierarchyItem>, request: Option<RequestConstraints>)
    ensures Compile(hierarchy, request).constraints == ApplyAll(Unconstrained(), RulesInForce(hierarchy, request))
  {
    var rules := RulesOf(Sort(Before, hierarchy));
    RequestAsRules(ApplyAll(Unconstrained(), rules), request);
    ApplyAllConcat(Unconstrained(), rules, RequestRules(request));
  }

  /** Compiling a policy's flattened rules again, as one global policy, with a request's constraints,
      gives the constraints of compiling the hierarchy it came from with them. */
  lemma RecompileFlattened(
    hierarchy: seq<HierarchyItem>, first: Option<RequestConstraints>, second: Option<RequestConstraints>)
    ensures var flat := HierarchyItem(Global, None, "cached", 1, Compile(hierarchy, first).rules);
            Compile([flat], second).constraints == Compile(hierarchy, second).constraints
            && Compile([flat], second).rules == Compile(hierarchy, second).rules
  {
    var rules := Compile(hierarchy, first).rules;
    var flat := HierarchyItem(Global, None, "cached", 1, rules);
    assert Sort(Before, [flat]) == [flat];
    assert [flat][..0] == [];
    assert RulesOf([flat]) == [] + rules == rules;
  }
}
