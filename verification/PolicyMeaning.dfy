/** What compiled policies mean: verdicts of the evaluator on compiled constraints, stated over the
    rules they were compiled from, and what adding a policy can change. */
module PolicyMeaning {
  import opened Collections
  import opened Sorting
  import opened Text
  import opened PolicyCompiler
  import opened PolicyEvaluator

  // ---------------------------------------------------------------- what rules say

  predicate Denies(r: Rule, d: Dimension) {
    r.effect.Deny? && (r.target == Names(d) || (d == Region && r.target.DataResidency?))
  }

  predicate Allows(r: Rule, d: Dimension) {
    r.effect.Allow? && r.target == Names(d)
  }

  /** Some deny rule names `x`. */
  ghost predicate Forbidden(rules: seq<Rule>, d: Dimension, x: string) {
    exists r :: r in rules && Denies(r, d) && Listed(d, r.value.texts, x)
  }

  /** Every allow rule names `x`. */
  ghost predicate Endorsed(rules: seq<Rule>, d: Dimension, x: string) {
    forall r :: r in rules && Allows(r, d) ==> Listed(d, r.value.texts, x)
  }

  ghost predicate HasAllow(rules: seq<Rule>, d: Dimension) {
    exists r :: r in rules && Allows(r, d)
  }

  /** Every allow rule lists the very entry `e`. */
  ghost predicate Common(rules: seq<Rule>, d: Dimension, e: string) {
    forall r :: r in rules && Allows(r, d) ==> e in NormSet(d, r.value.texts)
  }

  /** There are allow rules, and an entry they all list. */
  ghost predicate Restricted(rules: seq<Rule>, d: Dimension) {
    HasAllow(rules, d) && exists e :: Common(rules, d, e)
  }

  /** There are allow rules, but no entry they all list. */
  ghost predicate Collapsed(rules: seq<Rule>, d: Dimension) {
    HasAllow(rules, d) && !exists e :: Common(rules, d, e)
  }

  /** The verdict of a compiled policy on `x`, in terms of its rules. */
  ghost predicate Outside(rules: seq<Rule>, d: Dimension, x: string) {
    Restricted(rules, d) && !exists e :: Common(rules, d, e) && Matches(d, e, x)
  }

  ghost predicate Refused(rules: seq<Rule>, d: Dimension, x: string) {
    Forbidden(rules, d, x) || Outside(rules, d, x)
  }

  predicate Disables(r: Rule, f: Feature) {
    r.target == Switch(f) && (r.effect.Deny? || !r.value.truthy)
  }

  ghost predicate Disabled(rules: seq<Rule>, f: Feature) {
    exists r :: r in rules && Disables(r, f)
  }

  predicate Caps(r: Rule, l: Limit) {
    r.target == Ceiling(l) && r.value.number.Some?
  }

  ghost predicate Capped(rules: seq<Rule>, l: Limit) {
    exists r :: r in rules && Caps(r, l)
  }

  /** Some rule's ceiling is below `n`. */
  ghost predicate Over(rules: seq<Rule>, l: Limit, n: real) {
    exists r :: r in rules && Caps(r, l) && n > r.value.number.value
  }

  ghost predicate TagMissing(rules: seq<Rule>, k: Candidate) {
    exists r, t :: r in rules && RequiresTag(r) && t in r.value.texts && !Carries(k, t)
  }

  /** The residency the innermost allow rule asks for. */
  function ResidencyOf(rules: seq<Rule>): Option<string> {
    if rules == [] then None
    else
      var r := rules[|rules| - 1];
      if r.target.DataResidency? && r.effect.Allow? then Some(r.value.text) else ResidencyOf(rules[..|rules| - 1])
  }

  function Compiled(rules: seq<Rule>): Constraints {
    ApplyAll(Unconstrained(), rules)
  }

  // ---------------------------------------------------------------- lists of names, compiled

  ghost function DeniedSet(c: Constraints, d: Dimension): set<string> {
    if d in c.denied then NormSet(d, c.denied[d]) else {}
  }

  ghost function AllowedSet(c: Constraints, d: Dimension): set<string> {
    if d in c.allowed then NormSet(d, c.allowed[d]) else {}
  }

  lemma UnionSet(d: Dimension, current: Option<seq<string>>, target: seq<string>)
    ensures NormSet(d, Union(d, current, target))
         == NormSet(d, target) + match current case None => {} case Some(s) => NormSet(d, s)
  {
    UnionMeaning(d, current, target);
    assert NormSet(d, []) == {};
  }

  lemma DenyEffect(c: Constraints, x: Dimension, names: seq<string>, d: Dimension)
    ensures var n := DenyNames(c, x, names);
            && n == c.(denied := n.denied)
            && DeniedSet(n, d) == DeniedSet(c, d) + if d == x then NormSet(d, names) else {}
  {
    hide Union, NormSet;
    UnionSet(d, Lookup(c.denied, d), names);
  }

  lemma AllowEffect(c: Constraints, x: Dimension, names: seq<string>, d: Dimension)
    ensures var n := AllowNames(c, x, names);
            && n == c.(allowed := n.allowed)
            && n.allowed.Keys == c.allowed.Keys + {x}
            && AllowedSet(n, d) == if d != x then AllowedSet(c, d)
                                   else if d in c.allowed then AllowedSet(c, d) * NormSet(d, names)
                                   else NormSet(d, names)
  {
    hide IntersectSets, NormSet;
  }

  /** How a rule acts, apart from the details of its lists. */
  lemma ApplyLists(c: Constraints, r: Rule)
    ensures r.target.Names? ==>
              Apply(c, r) == if r.effect.Deny? then DenyNames(c, r.target.dimension, r.value.texts)
                             else AllowNames(c, r.target.dimension, r.value.texts)
    ensures r.target.DataResidency? && r.effect.Deny? ==> Apply(c, r) == DenyNames(c, Region, r.value.texts)
    ensures !r.target.Names? && !(r.target.DataResidency? && r.effect.Deny?) ==>
              Apply(c, r).allowed == c.allowed && Apply(c, r).denied == c.denied
  {
    hide DenyNames, AllowNames, Union;
  }

  lemma ApplyDenied(c: Constraints, r: Rule, d: Dimension)
    ensures DeniedSet(Apply(c, r), d) == DeniedSet(c, d) + if Denies(r, d) then NormSet(d, r.value.texts) else {}
  {
    hide Apply, DenyNames, AllowNames, NormSet;
    ApplyLists(c, r);
    if r.target.Names? {
      DenyEffect(c, r.target.dimension, r.value.texts, d);
      AllowEffect(c, r.target.dimension, r.value.texts, d);
    } else {
      DenyEffect(c, Region, r.value.texts, d);
    }
  }

  lemma ApplyAllowed(c: Constraints, r: Rule, d: Dimension)
    ensures d in Apply(c, r).allowed <==> d in c.allowed || Allows(r, d)
    ensures AllowedSet(Apply(c, r), d)
         == if !Allows(r, d) then AllowedSet(c, d)
            else if d in c.allowed then AllowedSet(c, d) * NormSet(d, r.value.texts)
            else NormSet(d, r.value.texts)
  {
    hide Apply, DenyNames, AllowNames, NormSet;
    ApplyLists(c, r);
    if r.target.Names? {
      DenyEffect(c, r.target.dimension, r.value.texts, d);
      AllowEffect(c, r.target.dimension, r.value.texts, d);
    } else {
      DenyEffect(c, Region, r.value.texts, d);
    }
  }

  lemma {:induction false} CompiledDenied(rules: seq<Rule>, d: Dimension, e: string)
    ensures e in DeniedSet(Compiled(rules), d)
       <==> exists r :: r in rules && Denies(r, d) && e in NormSet(d, r.value.texts)
  {
    hide Apply, NormSet, Denies;
    if rules != [] {
      var front, r := rules[..|rules| - 1], rules[|rules| - 1];
      assert rules == front + [r];
      CompiledDenied(front, d, e);
      ApplyDenied(Compiled(front), r, d);
    }
  }

  lemma {:induction false} CompiledAllowed(rules: seq<Rule>, d: Dimension, e: string)
    ensures d in Compiled(rules).allowed <==> HasAllow(rules, d)
    ensures e in AllowedSet(Compiled(rules), d) <==> HasAllow(rules, d) && Common(rules, d, e)
  {
    hide Apply, NormSet, Allows;
    if rules != [] {
      var front, r := rules[..|rules| - 1], rules[|rules| - 1];
      assert rules == front + [r];
      CompiledAllowed(front, d, e);
      ApplyAllowed(Compiled(front), r, d);
    }
  }

  lemma ListedNorm(d: Dimension, names: seq<string>, x: string)
    ensures Listed(d, names, x) <==> exists e :: e in NormSet(d, names) && Matches(d, e, x)
  {
    hide Matches, Norm;
    if Listed(d, names, x) {
      var i :| 0 <= i < |names| && Matches(d, names[i], x);
      MatchesNorm(d, names[i], x);
      assert Norm(d, names[i]) in NormSet(d, names);
    }
    if e :| e in NormSet(d, names) && Matches(d, e, x) {
      var n :| n in names && e == Norm(d, n);
      MatchesNorm(d, n, x);
    }
  }

  lemma DenylistMeans(rules: seq<Rule>, d: Dimension, x: string)
    ensures OnDenylist(Compiled(rules), d, x) <==> Forbidden(rules, d, x)
  {
    hide Matches, Norm, Compiled, Denies, NormSet, Listed;
    var c := Compiled(rules);
    if OnDenylist(c, d, x) {
      ListedNorm(d, c.denied[d], x);
      var e :| e in DeniedSet(c, d) && Matches(d, e, x);
      CompiledDenied(rules, d, e);
      var r :| r in rules && Denies(r, d) && e in NormSet(d, r.value.texts);
      ListedNorm(d, r.value.texts, x);
    }
    if r :| r in rules && Denies(r, d) && Listed(d, r.value.texts, x) {
      ListedNorm(d, r.value.texts, x);
      var e :| e in NormSet(d, r.value.texts) && Matches(d, e, x);
      CompiledDenied(rules, d, e);
      ListedNorm(d, c.denied[d], x);
    }
  }

  lemma AllowlistMeans(rules: seq<Rule>, d: Dimension, x: string)
    ensures OffAllowlist(Compiled(rules), d, x) <==> Outside(rules, d, x)
  {
    hide Matches, Norm, Compiled, Allows, Listed, Common, HasAllow;
    var c := Compiled(rules);
    CompiledAllowed(rules, d, x);
    if d in c.allowed {
      var names := c.allowed[d];
      ListedNorm(d, names, x);
      forall e ensures e in NormSet(d, names) <==> Common(rules, d, e) {
        CompiledAllowed(rules, d, e);
      }
      if |names| > 0 {
        assert Norm(d, names[0]) in NormSet(d, names);
      }
    }
  }

  // ---------------------------------------------------------------- other constraints, compiled

  lemma ApplyFeature(c: Constraints, r: Rule, f: Feature)
    ensures SwitchedOff(Apply(c, r), f) <==> SwitchedOff(c, f) || Disables(r, f)
  {
    hide Union, IntersectSets;
  }

  /** A feature is off iff some rule turns it off. */
  lemma {:induction false} FeatureMeans(rules: seq<Rule>, f: Feature)
    ensures SwitchedOff(Compiled(rules), f) <==> Disabled(rules, f)
  {
    hide Apply, SwitchedOff, Disables;
    if rules == [] {
      NothingCompiled(f, MaxTools, 0.0);
    } else {
      var front, r := rules[..|rules| - 1], rules[|rules| - 1];
      assert rules == front + [r];
      FeatureMeans(front, f);
      ApplyFeature(Compiled(front), r, f);
    }
  }

  lemma NothingCompiled(f: Feature, l: Limit, n: real)
    ensures !SwitchedOff(Compiled([]), f) && l !in Compiled([]).ceilings && !Exceeds(Compiled([]), l, n)
  {
  }

  /** A rule touches only what its target says. */
  lemma ApplyRest(c: Constraints, r: Rule)
    ensures Apply(c, r).ceilings == if r.target.Ceiling? && r.value.number.Some? then
                                      var l := r.target.limit;
                                      c.ceilings[l := Lowest(Lookup(c.ceilings, l), r.value.number.value)]
                                    else c.ceilings
    ensures Apply(c, r).requiredDataResidency
         == if r.target.DataResidency? && r.effect.Allow? then Some(r.value.text) else c.requiredDataResidency
    ensures Apply(c, r).temperatureMin == c.temperatureMin && Apply(c, r).temperatureMax == c.temperatureMax
  {
    hide Union, DenyNames, AllowNames, Lowest;
    if r.target.Names? || r.target.DataResidency? {
      ApplyLists(c, r);
      var d := if r.target.Names? then r.target.dimension else Region;
      DenyEffect(c, d, r.value.texts, d);
      AllowEffect(c, d, r.value.texts, d);
    }
  }

  lemma LowestMeans(current: Option<real>, n: real, x: real)
    ensures x > Lowest(current, n) <==> x > n || (current.Some? && x > current.value)
  {
  }

  lemma ApplyCeiling(c: Constraints, r: Rule, l: Limit, n: real)
    ensures l in Apply(c, r).ceilings <==> l in c.ceilings || Caps(r, l)
    ensures Exceeds(Apply(c, r), l, n) <==> Exceeds(c, l, n) || (Caps(r, l) && n > r.value.number.value)
  {
    hide Apply, DenyNames, AllowNames, Lowest;
    ApplyRest(c, r);
    LowestMeans(Lookup(c.ceilings, l), r.value.number.GetOr(0.0), n);
  }

  /** The strictest ceiling wins. */
  lemma {:induction false} CeilingMeans(rules: seq<Rule>, l: Limit, n: real)
    ensures l in Compiled(rules).ceilings <==> Capped(rules, l)
    ensures Exceeds(Compiled(rules), l, n) <==> Over(rules, l, n)
  {
    hide Apply, Exceeds, Caps;
    if rules == [] {
      NothingCompiled(Tools, l, n);
    } else {
      var front, r := rules[..|rules| - 1], rules[|rules| - 1];
      assert rules == front + [r];
      CeilingMeans(front, l, n);
      ApplyCeiling(Compiled(front), r, l, n);
    }
  }

  lemma {:induction false} ResidencyMeans(rules: seq<Rule>)
    ensures Compiled(rules).requiredDataResidency == ResidencyOf(rules)
    ensures Compiled(rules).temperatureMin.None? && Compiled(rules).temperatureMax.None?
  {
    hide Apply;
    if rules != [] {
      ResidencyMeans(rules[..|rules| - 1]);
      ApplyRest(Compiled(rules[..|rules| - 1]), rules[|rules| - 1]);
    }
  }

  ghost function TagSet(c: Constraints): set<string> {
    NormSet(Provider, c.requiredProviderTags.GetOr([]))
  }

  lemma {:induction false} CompiledTags(rules: seq<Rule>, t: string)
    ensures t in TagSet(Compiled(rules))
       <==> exists r :: r in rules && RequiresTag(r) && t in NormSet(Provider, r.value.texts)
  {
    if rules != [] {
      var front, r := rules[..|rules| - 1], rules[|rules| - 1];
      assert rules == front + [r];
      CompiledTags(front, t);
      ApplyTags(Compiled(front), r);
      hide Apply, NormSet, RequiresTag;
    }
  }

  lemma ApplyTags(c: Constraints, r: Rule)
    ensures TagSet(Apply(c, r)) == TagSet(c) + if RequiresTag(r) then NormSet(Provider, r.value.texts) else {}
  {
    hide Union, IntersectSets, NormSet;
    UnionSet(Provider, c.requiredProviderTags, r.value.texts);
    NoNames(Provider);
  }

  lemma NoNames(d: Dimension)
    ensures NormSet(d, []) == {}
  {
  }

  lemma CarriesFolded(k: Candidate, t: string)
    ensures Carries(k, Norm(Provider, t)) == Carries(k, t)
  {
    CaseFolding(t);
  }

  lemma TagsMean(rules: seq<Rule>, k: Candidate)
    ensures LacksTag(Compiled(rules), k) <==> TagMissing(rules, k)
  {
    hide Compiled, RequiresTag, Carries, Norm;
    var tags := Compiled(rules).requiredProviderTags.GetOr([]);
    if LacksTag(Compiled(rules), k) {
      var i :| 0 <= i < |tags| && !Carries(k, tags[i]);
      var t := Norm(Provider, tags[i]);
      CarriesFolded(k, tags[i]);
      CompiledTags(rules, t);
      var r :| r in rules && RequiresTag(r) && t in NormSet(Provider, r.value.texts);
      var u :| u in r.value.texts && t == Norm(Provider, u);
      CarriesFolded(k, u);
    }
    if r, u :| r in rules && RequiresTag(r) && u in r.value.texts && !Carries(k, u) {
      var t := Norm(Provider, u);
      CarriesFolded(k, u);
      CompiledTags(rules, t);
      assert t in NormSet(Provider, r.value.texts);
      var v :| v in tags && t == Norm(Provider, v);
      CarriesFolded(k, v);
    }
  }

  // ---------------------------------------------------------------- one rule

  lemma RuleDenies(c: Constraints, r: Rule, d: Dimension, x: string)
    ensures OnDenylist(Apply(c, r), d, x) <==> OnDenylist(c, d, x) || (Denies(r, d) && Listed(d, r.value.texts, x))
  {
    hide Apply, Denies, NormSet, Listed, Matches;
    ApplyDenied(c, r, d);
    DenylistSet(c, d, x);
    DenylistSet(Apply(c, r), d, x);
    ListedNorm(d, r.value.texts, x);
  }

  lemma DenylistSet(c: Constraints, d: Dimension, x: string)
    ensures OnDenylist(c, d, x) <==> exists e :: e in DeniedSet(c, d) && Matches(d, e, x)
  {
    hide NormSet, Listed, Matches;
    if d in c.denied {
      ListedNorm(d, c.denied[d], x);
    }
  }

  lemma AllowlistSet(c: Constraints, d: Dimension, x: string)
    ensures OffAllowlist(c, d, x) <==> AllowedSet(c, d) != {} && !exists e :: e in AllowedSet(c, d) && Matches(d, e, x)
  {
    hide Listed, Matches, Norm;
    if d in c.allowed {
      ListedNorm(d, c.allowed[d], x);
      if |c.allowed[d]| > 0 {
        assert Norm(d, c.allowed[d][0]) in NormSet(d, c.allowed[d]);
      }
    }
  }

  /** One rule, added to any constraints: a deny rule refuses what it names and nothing else; an allow
      rule keeps, of what was allowed, the entries it shares, or allows its own where nothing
      restricted; a feature is off, a ceiling exceeded, or a tag missing if it was before or if the
      rule says so. */
  lemma RuleEffect(c: Constraints, r: Rule)
    ensures forall d, x :: OnDenylist(Apply(c, r), d, x)
                      <==> OnDenylist(c, d, x) || (Denies(r, d) && Listed(d, r.value.texts, x))
    ensures forall d, x :: OffAllowlist(Apply(c, r), d, x)
                      <==> var s := if !Allows(r, d) then AllowedSet(c, d)
                                    else if d in c.allowed then AllowedSet(c, d) * NormSet(d, r.value.texts)
                                    else NormSet(d, r.value.texts);
                           s != {} && !exists e :: e in s && Matches(d, e, x)
    ensures forall f :: SwitchedOff(Apply(c, r), f) <==> SwitchedOff(c, f) || Disables(r, f)
    ensures forall l, n :: Exceeds(Apply(c, r), l, n) <==> Exceeds(c, l, n) || (Caps(r, l) && n > r.value.number.value)
    ensures forall k :: LacksTag(Apply(c, r), k)
                   <==> LacksTag(c, k) || (RequiresTag(r) && exists t :: t in r.value.texts && !Carries(k, t))
  {
    hide Apply, Denies, Allows, Disables, RequiresTag, NormSet, Listed, Matches, LacksTag, OnDenylist,
      OffAllowlist, SwitchedOff, Exceeds, Carries, AllowedSet;
    forall d, x
      ensures OnDenylist(Apply(c, r), d, x) <==> OnDenylist(c, d, x) || (Denies(r, d) && Listed(d, r.value.texts, x))
      ensures OffAllowlist(Apply(c, r), d, x)
         <==> var s := if !Allows(r, d) then AllowedSet(c, d)
                       else if d in c.allowed then AllowedSet(c, d) * NormSet(d, r.value.texts)
                       else NormSet(d, r.value.texts);
              s != {} && !exists e :: e in s && Matches(d, e, x)
    {
      RuleDenies(c, r, d, x);
      ApplyAllowed(c, r, d);
      AllowlistSet(Apply(c, r), d, x);
    }
    forall f ensures SwitchedOff(Apply(c, r), f) <==> SwitchedOff(c, f) || Disables(r, f) {
      ApplyFeature(c, r, f);
    }
    forall l, n
      ensures Exceeds(Apply(c, r), l, n) <==> Exceeds(c, l, n) || (Caps(r, l) && n > r.value.number.value)
    {
      ApplyCeiling(c, r, l, n);
    }
    forall k
      ensures LacksTag(Apply(c, r), k)
         <==> LacksTag(c, k) || (RequiresTag(r) && exists t :: t in r.value.texts && !Carries(k, t))
    {
      RuleTags(c, r, k);
    }
  }

  lemma LacksTagSet(c: Constraints, k: Candidate)
    ensures LacksTag(c, k) <==> exists t :: t in TagSet(c) && !Carries(k, t)
  {
    hide Carries, Norm;
    var tags := c.requiredProviderTags.GetOr([]);
    UncarriedNorm(tags, k);
    if LacksTag(c, k) {
      var i :| 0 <= i < |tags| && !Carries(k, tags[i]);
      assert tags[i] in tags;
    }
    if t :| t in tags && !Carries(k, t) {
      var i :| 0 <= i < |tags| && tags[i] == t;
    }
  }

  lemma UncarriedNorm(tags: seq<string>, k: Candidate)
    ensures (exists t :: t in NormSet(Provider, tags) && !Carries(k, t)) <==> exists t :: t in tags && !Carries(k, t)
  {
    hide Carries, Norm;
    if t :| t in NormSet(Provider, tags) && !Carries(k, t) {
      var u :| u in tags && t == Norm(Provider, u);
      CarriesFolded(k, u);
    }
    if t :| t in tags && !Carries(k, t) {
      CarriesFolded(k, t);
      assert Norm(Provider, t) in NormSet(Provider, tags);
    }
  }

  lemma RuleTags(c: Constraints, r: Rule, k: Candidate)
    ensures LacksTag(Apply(c, r), k)
       <==> LacksTag(c, k) || (RequiresTag(r) && exists t :: t in r.value.texts && !Carries(k, t))
  {
    hide Apply, RequiresTag, NormSet, Carries, TagSet, LacksTag;
    ApplyTags(c, r);
    LacksTagSet(c, k);
    LacksTagSet(Apply(c, r), k);
    UncarriedNorm(r.value.texts, k);
  }

  // ---------------------------------------------------------------- one dimension: what the rules mean

  predicate Exact(d: Dimension) {
    d != Model && d != Region
  }

  lemma ExactListing(d: Dimension, names: seq<string>, x: string)
    requires Exact(d)
    ensures Listed(d, names, x) <==> x in NormSet(d, names)
  {
    if x in NormSet(d, names) {
      var n :| n in names && x == Norm(d, n);
    }
  }

  predicate Passes(c: Constraints, d: Dimension, x: string) {
    !OnDenylist(c, d, x) && !OffAllowlist(c, d, x)
  }

  /** Where names are compared exactly, a compiled policy lets `x` through iff no deny rule names
      it and every allow rule does, or else the allow rules have no entry in common. */
  lemma CompiledMeansRules(rules: seq<Rule>, d: Dimension, x: string)
    requires Exact(d)
    ensures Passes(Compiled(rules), d, x)
       <==> !Forbidden(rules, d, x) && (Endorsed(rules, d, x) || Collapsed(rules, d))
  {
    hide Compiled, Allows, Denies, NormSet, Listed, Matches, Norm;
    DenylistMeans(rules, d, x);
    AllowlistMeans(rules, d, x);
    forall r | r in rules ensures Listed(d, r.value.texts, x) <==> x in NormSet(d, r.value.texts) {
      ExactListing(d, r.value.texts, x);
    }
    if exists e :: Common(rules, d, e) && Matches(d, e, x) {
      var e :| Common(rules, d, e) && Matches(d, e, x);
      forall r | r in rules && Allows(r, d) ensures x in NormSet(d, r.value.texts) {
        ListedNorm(d, r.value.texts, x);
      }
    }
    if Endorsed(rules, d, x) && HasAllow(rules, d) {
      var r :| r in rules && Allows(r, d);
      SelfMatch(d, r.value.texts, x);
      assert Common(rules, d, x);
    }
  }

  lemma SelfMatch(d: Dimension, names: seq<string>, x: string)
    requires Exact(d) && x in NormSet(d, names)
    ensures Matches(d, x, x)
  {
    var n :| n in names && x == Norm(d, n);
    NormNorm(d, n);
  }

  function Longest(names: seq<string>): (n: nat)
    ensures forall t :: t in names ==> |t| <= n
  {
    if names == [] then 0
    else
      var m := Longest(names[1..]);
      assert names == [names[0]] + names[1..];
      if |names[0]| > m then |names[0]| else m
  }

  function LongestOf(rules: seq<Rule>): (n: nat)
    ensures forall r, t :: r in rules && t in r.value.texts ==> |t| <= n
    ensures forall r :: r in rules ==> |r.value.text| <= n
  {
    if rules == [] then 0
    else
      var m := LongestOf(rules[1..]);
      var k := Longest(rules[0].value.texts + [rules[0].value.text]);
      assert rules == [rules[0]] + rules[1..];
      assert forall t :: t in rules[0].value.texts ==> t in rules[0].value.texts + [rules[0].value.text];
      assert rules[0].value.text in rules[0].value.texts + [rules[0].value.text];
      if k > m then k else m
  }

  /** A name that no rule mentions. */
  function Unnamed(rules: seq<Rule>): (x: string)
    ensures Lower(x) == x && |x| == LongestOf(rules) + 1
  {
    seq(LongestOf(rules) + 1, _ => 'a')
  }

  lemma UnnamedIsNotListed(rules: seq<Rule>, d: Dimension, r: Rule)
    requires Exact(d) && r in rules
    ensures !Listed(d, r.value.texts, Unnamed(rules))
  {
    forall t | t in r.value.texts ensures Norm(d, t) != Unnamed(rules) {
      assert |Norm(d, t)| == |t|;
    }
  }

  // ---------------------------------------------------------------- where entries cover more than their name

  /** What an entry covers: a region entry the regions of its group, or itself and global routes; a
      model entry, besides itself, the ids it is a prefix of. */
  function Covered(d: Dimension, e: string): set<string> {
    if d != Region then {Norm(d, e)}
    else
      match RegionGroup(Upper(e))
      case Some(regions) => regions
      case None => {Lower(e), "global"}
  }

  lemma RegionCovered(e: string, x: string)
    ensures Matches(Region, e, x) <==> Lower(x) in Covered(Region, e)
  {
    assert Lower(e) == "global" ==> Upper(e) == "GLOBAL" by {
      CaseFolding(e);
      assert Upper("global") == "GLOBAL";
    }
  }

  /** Every name that an allow entry stands for, that all allow rules endorse and no deny rule
      forbids, is covered by an entry they have in common. */
  ghost predicate EndorsedEntriesPass(rules: seq<Rule>, d: Dimension) {
    forall r, e, x ::
      (r in rules && Allows(r, d) && e in r.value.texts && x in Covered(d, e)
       && Endorsed(rules, d, x) && !Forbidden(rules, d, x)) ==> !Outside(rules, d, x)
  }

  /** A deny entry without a character covers every model. */
  ghost predicate ForbidsAll(rules: seq<Rule>, d: Dimension) {
    d == Model && Forbidden(rules, Model, "")
  }

  lemma EmptyEntry(names: seq<string>, x: string)
    requires Listed(Model, names, "")
    ensures Listed(Model, names, x) && "" in NormSet(Model, names)
  {
    var i :| 0 <= i < |names| && Matches(Model, names[i], "");
    assert Norm(Model, names[i]) == "";
    assert Matches(Model, names[i], x);
  }

  lemma PrefixListed(names: seq<string>, p: string, x: string)
    requires p <= x && Listed(Model, names, p)
    ensures Listed(Model, names, x)
  {
    var i :| 0 <= i < |names| && Matches(Model, names[i], p);
    assert Matches(Model, names[i], x);
  }

  lemma FoldedRegion(names: seq<string>, x: string)
    ensures Listed(Region, names, Lower(x)) <==> Listed(Region, names, x)
  {
    hide RegionGroup;
    CaseFolding(x);
    assert forall e :: Matches(Region, e, Lower(x)) <==> Matches(Region, e, x);
  }

  /** Of the allow entries no longer than `n` that are prefixes of `x`, the longest. */
  lemma {:induction false} LongestPrefix(rules: seq<Rule>, x: string, n: nat) returns (r: Rule, e: string)
    requires exists r, e ::
               r in rules && Allows(r, Model) && e in r.value.texts && Matches(Model, e, x) && |e| <= n
    ensures r in rules && Allows(r, Model) && e in r.value.texts && Matches(Model, e, x)
    ensures forall q, f ::
              q in rules && Allows(q, Model) && f in q.value.texts && Matches(Model, f, x) && |f| <= n ==> |f| <= |e|
  {
    hide Allows;
    if r0, e0 :| r0 in rules && Allows(r0, Model) && e0 in r0.value.texts && Matches(Model, e0, x) && |e0| == n {
      r, e := r0, e0;
    } else {
      r, e := LongestPrefix(rules, x, n - 1);
    }
  }

  /** An endorsed model is endorsed because an allow entry it starts with is. */
  lemma EndorsedByEntry(rules: seq<Rule>, x: string) returns (r: Rule, e: string)
    requires HasAllow(rules, Model) && Endorsed(rules, Model, x)
    ensures r in rules && Allows(r, Model) && e in r.value.texts && Norm(Model, e) <= x
    ensures Endorsed(rules, Model, Norm(Model, e))
  {
    hide Allows;
    var r0 :| r0 in rules && Allows(r0, Model);
    var i0 :| 0 <= i0 < |r0.value.texts| && Matches(Model, r0.value.texts[i0], x);
    assert r0.value.texts[i0] in r0.value.texts;
    r, e := LongestPrefix(rules, x, |x|);
    var p := Norm(Model, e);
    forall q | q in rules && Allows(q, Model) ensures Listed(Model, q.value.texts, p) {
      var i :| 0 <= i < |q.value.texts| && Matches(Model, q.value.texts[i], x);
      assert q.value.texts[i] in q.value.texts;
      assert Norm(Model, q.value.texts[i]) <= p;
    }
  }

  /** Where endorsed entries pass, every endorsed name does. */
  lemma EndorsedPasses(rules: seq<Rule>, d: Dimension, x: string)
    requires EndorsedEntriesPass(rules, d) && Endorsed(rules, d, x) && !Forbidden(rules, d, x)
    ensures !Outside(rules, d, x)
  {
    hide Allows, Denies, Norm, RegionGroup;
    if r :| r in rules && Allows(r, d) {
      if d == Model {
        var r, e := EndorsedByEntry(rules, x);
        var p := Norm(Model, e);
        if Forbidden(rules, Model, p) {
          var q :| q in rules && Denies(q, Model) && Listed(Model, q.value.texts, p);
          PrefixListed(q.value.texts, p, x);
          assert false;
        }
        assert p in Covered(Model, e);
        assert !Outside(rules, Model, p);
      } else {
        var i :| 0 <= i < |r.value.texts| && Matches(d, r.value.texts[i], x);
        var e := r.value.texts[i];
        if d == Region {
          RegionCovered(e, x);
          RegionFolds(rules, x);
        }
        var y := if d == Region then Lower(x) else x;
        assert e in r.value.texts && y in Covered(d, e);
      }
    }
  }

  lemma RegionFolds(rules: seq<Rule>, x: string)
    ensures Endorsed(rules, Region, Lower(x)) <==> Endorsed(rules, Region, x)
    ensures Forbidden(rules, Region, Lower(x)) <==> Forbidden(rules, Region, x)
    ensures Outside(rules, Region, Lower(x)) <==> Outside(rules, Region, x)
  {
    hide Allows, Denies, Listed, RegionGroup;
    forall r | r in rules
      ensures Listed(Region, r.value.texts, Lower(x)) <==> Listed(Region, r.value.texts, x)
    {
      FoldedRegion(r.value.texts, x);
    }
    CaseFolding(x);
    assert forall e :: Matches(Region, e, Lower(x)) <==> Matches(Region, e, x);
  }

  /** Whatever passes is named by every allow rule and by no deny rule, as long as the allow rules
      have an entry in common (or there are none). */
  lemma CoveringIsSafe(rules: seq<Rule>, d: Dimension, x: string)
    requires !Collapsed(rules, d) && Passes(Compiled(rules), d, x)
    ensures !Forbidden(rules, d, x) && Endorsed(rules, d, x)
  {
    hide Compiled, Allows, Denies, NormSet, Listed, Matches, Norm, OnDenylist, OffAllowlist;
    DenylistMeans(rules, d, x);
    AllowlistMeans(rules, d, x);
    if HasAllow(rules, d) {
      var e :| Common(rules, d, e) && Matches(d, e, x);
      forall r | r in rules && Allows(r, d) ensures Listed(d, r.value.texts, x) {
        ListedNorm(d, r.value.texts, x);
      }
    }
  }

  /** A name that no list mentions: the empty one for models, whose entries are prefixes. */
  function Outsider(rules: seq<Rule>, d: Dimension): string {
    if d == Model then "" else Unnamed(rules)
  }

  lemma GroupNames(name: string, x: string)
    requires RegionGroup(name).Some? && x in RegionGroup(name).value
    ensures |x| > 1 && (x[0] != 'a' || x[1] != 'a')
  {
  }

  lemma UnnamedRegion(rules: seq<Rule>, e: string)
    requires |e| <= LongestOf(rules)
    ensures !Matches(Region, e, Unnamed(rules))
  {
    hide RegionGroup, RegionMatches;
    var x := Unnamed(rules);
    RegionCovered(e, x);
    assert x[0] == 'a' && (|x| > 1 ==> x[1] == 'a');
    if RegionGroup(Upper(e)).Some? && x in RegionGroup(Upper(e)).value {
      GroupNames(Upper(e), x);
    }
    assert "global"[0] == 'g' && |Lower(e)| == |e|;
  }

  lemma OutsiderIsNotListed(rules: seq<Rule>, d: Dimension, r: Rule)
    requires r in rules && (d == Model ==> "" !in NormSet(Model, r.value.texts))
    ensures !Listed(d, r.value.texts, Outsider(rules, d))
  {
    hide RegionMatches, Unnamed;
    if d == Model {
      if Listed(Model, r.value.texts, "") {
        EmptyEntry(r.value.texts, "");
      }
    } else if d == Region {
      forall e | e in r.value.texts ensures !Matches(Region, e, Unnamed(rules)) {
        UnnamedRegion(rules, e);
      }
    } else {
      UnnamedIsNotListed(rules, d, r);
    }
  }

  lemma CollapsedOutsider(rules: seq<Rule>, d: Dimension)
    requires Collapsed(rules, d) && !ForbidsAll(rules, d)
    ensures !Forbidden(rules, d, Outsider(rules, d)) && !Endorsed(rules, d, Outsider(rules, d))
  {
    hide Allows, Denies, NormSet, Listed, Unnamed;
    var x := Outsider(rules, d);
    if d == Model {
      assert x == "" && !Common(rules, Model, "");
      var r :| r in rules && Allows(r, Model) && "" !in NormSet(Model, r.value.texts);
      if Listed(Model, r.value.texts, "") {
        EmptyEntry(r.value.texts, "");
      }
    } else {
      forall r | r in rules ensures !Listed(d, r.value.texts, x) {
        OutsiderIsNotListed(rules, d, r);
      }
      var r :| r in rules && Allows(r, d);
    }
  }

  /** The compiled policy means what its rules mean, for every name, exactly if the allow rules have
      an entry in common (or there are none) and what all of them endorse is covered by such
      entries, unless a deny entry covers everything. Where names are compared exactly, the second
      part always holds. */
  lemma MeaningIsExact(rules: seq<Rule>, d: Dimension)
    ensures (forall x :: Passes(Compiled(rules), d, x) <==> !Forbidden(rules, d, x) && Endorsed(rules, d, x))
       <==> ForbidsAll(rules, d) || (!Collapsed(rules, d) && EndorsedEntriesPass(rules, d))
    ensures Exact(d) ==> EndorsedEntriesPass(rules, d) && !ForbidsAll(rules, d)
  {
    hide Compiled, Allows, Denies, NormSet, Listed, Matches, Norm, Common, HasAllow, Outside, Forbidden, Endorsed,
      Covered, OnDenylist, OffAllowlist, Outsider, Restricted, Collapsed;
    if Exact(d) {
      ExactEntriesPass(rules, d);
    }
    forall x ensures Passes(Compiled(rules), d, x) <==> !Forbidden(rules, d, x) && !Outside(rules, d, x) {
      DenylistMeans(rules, d, x);
      AllowlistMeans(rules, d, x);
    }
    if ForbidsAll(rules, d) {
      forall x ensures Forbidden(rules, d, x) {
        AllForbidden(rules, x);
      }
    } else if Collapsed(rules, d) {
      CollapsedOutsider(rules, d);
      CollapsedOpens(rules, d, Outsider(rules, d));
    } else {
      forall x | !Forbidden(rules, d, x) && !Outside(rules, d, x) ensures Endorsed(rules, d, x) {
        CoveringIsSafe(rules, d, x);
      }
      if EndorsedEntriesPass(rules, d) {
        forall x | Endorsed(rules, d, x) && !Forbidden(rules, d, x) ensures !Outside(rules, d, x) {
          EndorsedPasses(rules, d, x);
        }
      }
    }
  }

  lemma AllForbidden(rules: seq<Rule>, x: string)
    requires Forbidden(rules, Model, "")
    ensures Forbidden(rules, Model, x)
  {
    hide Denies, Listed, NormSet;
    var r :| r in rules && Denies(r, Model) && Listed(Model, r.value.texts, "");
    EmptyEntry(r.value.texts, x);
  }

  lemma CollapsedOpens(rules: seq<Rule>, d: Dimension, x: string)
    requires Collapsed(rules, d)
    ensures !Outside(rules, d, x)
  {
  }

  lemma ExactEntriesPass(rules: seq<Rule>, d: Dimension)
    requires Exact(d)
    ensures EndorsedEntriesPass(rules, d)
  {
    hide Allows, Denies, NormSet, Listed, Matches, Norm;
    forall r, e, x | r in rules && Allows(r, d) && e in r.value.texts && x in Covered(d, e) && Endorsed(rules, d, x)
      ensures !Outside(rules, d, x)
    {
      forall q | q in rules && Allows(q, d) ensures x in NormSet(d, q.value.texts) {
        ExactListing(d, q.value.texts, x);
      }
      SelfMatch(d, r.value.texts, x);
      assert Common(rules, d, x);
    }
  }

  function NameRule(d: Dimension, effect: Effect, names: seq<string>): Rule {
    Rule(Names(d), effect, In, Value(names, "", true, None))
  }

  /** A model that both allow rules cover, by entries of different length, is refused, because only
      entries that are equal survive. */
  lemma PrefixesDoNotIntersect()
    ensures var rules := [NameRule(Model, Allow, ["gpt", "o1"]), NameRule(Model, Allow, ["gpt-4", "o1"])];
            && Endorsed(rules, Model, "gpt-4") && !Forbidden(rules, Model, "gpt-4")
            && OffAllowlist(Compiled(rules), Model, "gpt-4")
  {
    hide Compiled, NormSet, Matches, Listed, OffAllowlist;
    var a, b := NameRule(Model, Allow, ["gpt", "o1"]), NameRule(Model, Allow, ["gpt-4", "o1"]);
    var rules, x := [a, b], "gpt-4";
    PrefixFacts();
    assert a in rules && b in rules;
    forall e ensures Common(rules, Model, e) <==> e == "o1" {
      PairCommon(a, b, e);
      assert e in NormSet(Model, a.value.texts) * NormSet(Model, b.value.texts) <==> e == "o1";
    }
    assert HasAllow(rules, Model);
    assert Common(rules, Model, "o1");
    assert Outside(rules, Model, x);
    AllowlistMeans(rules, Model, x);
  }

  lemma PrefixFacts()
    ensures Listed(Model, ["gpt", "o1"], "gpt-4") && Listed(Model, ["gpt-4", "o1"], "gpt-4")
    ensures !Matches(Model, "o1", "gpt-4")
    ensures NormSet(Model, ["gpt", "o1"]) * NormSet(Model, ["gpt-4", "o1"]) == {"o1"}
  {
    hide Lower;
    AlreadyLower("gpt");
    AlreadyLower("gpt-4");
    AlreadyLower("o1");
    PairSet(Model, "gpt", "o1");
    PairSet(Model, "gpt-4", "o1");
    assert Matches(Model, ["gpt", "o1"][0], "gpt-4") && Matches(Model, ["gpt-4", "o1"][0], "gpt-4");
    assert "gpt" != "gpt-4" && "gpt" != "o1" && "gpt-4" != "o1";
  }

  lemma PairSet(d: Dimension, a: string, b: string)
    ensures NormSet(d, [a, b]) == {Norm(d, a), Norm(d, b)}
  {
    assert a in [a, b] && b in [a, b];
  }

  lemma PairCommon(a: Rule, b: Rule, e: string)
    requires Allows(a, Model) && Allows(b, Model)
    ensures Common([a, b], Model, e) <==> e in NormSet(Model, a.value.texts) && e in NormSet(Model, b.value.texts)
  {
    assert a in [a, b] && b in [a, b];
  }

  // ---------------------------------------------------------------- whole decisions

  /** Every check of a request, over the rules in force. */
  ghost predicate RequestPermitted(ctx: Context, rules: seq<Rule>) {
    && !Refused(rules, Model, Lower(ctx.canonicalId))
    && (Checked(ctx.family).Some? ==> !Refused(rules, ModelFamily, Checked(ctx.family).value))
    && (Checked(ctx.category).Some? ==> !Refused(rules, ModelCategory, Checked(ctx.category).value))
    && (forall m :: m in ctx.inputModalities.GetOr(["text"]) ==> !Refused(rules, InputModality, Lower(m)))
    && (forall m :: m in ctx.outputModalities.GetOr(["text"]) ==> !Forbidden(rules, OutputModality, Lower(m)))
    && UsePermitted(ctx, rules)
  }

  ghost predicate UsePermitted(ctx: Context, rules: seq<Rule>) {
    var names := ToolNames(ctx);
    && (names != [] ==>
          && !Disabled(rules, Tools)
          && !Over(rules, MaxTools, |names| as real)
          && !(ctx.parallelToolCalls && Disabled(rules, ParallelTools)))
    && (forall n :: n in names && n != "" ==> !Refused(rules, ToolName, n))
    && !(ctx.structuredOutput && Disabled(rules, StructuredOutput))
    && (ctx.reasoning.Some? ==>
          && !Disabled(rules, Reasoning)
          && (ctx.reasoning.value.maxTokens.Some? ==>
                !Over(rules, MaxReasoningTokens, ctx.reasoning.value.maxTokens.value)))
    && (ctx.maxTokens.Some? ==> !Over(rules, MaxOutputTokens, ctx.maxTokens.value))
    && (ctx.dataClassification.Some? && ctx.dataClassification.value != "" ==>
          !Refused(rules, DataClassification, ctx.dataClassification.value))
  }

  ghost predicate RoutePermitted(k: Candidate, rules: seq<Rule>) {
    && !Refused(rules, Provider, Lower(k.providerId))
    && !Refused(rules, Region, RegionOf(k))
    && Resident(ResidencyOf(rules), RegionOf(k))
    && !TagMissing(rules, k)
    && (Capped(rules, MaxCostPerRequest) ==>
          k.estimatedCost.Some? && !Over(rules, MaxCostPerRequest, k.estimatedCost.value))
  }

  predicate Resident(required: Option<string>, region: string) {
    required.None? || required.value == "" || RegionMatches(region, required.value)
  }

  lemma ListsMean(rules: seq<Rule>, d: Dimension)
    ensures forall x :: OnDenylist(Compiled(rules), d, x) <==> Forbidden(rules, d, x)
    ensures forall x :: OffAllowlist(Compiled(rules), d, x) <==> Outside(rules, d, x)
  {
    forall x
      ensures OnDenylist(Compiled(rules), d, x) <==> Forbidden(rules, d, x)
      ensures OffAllowlist(Compiled(rules), d, x) <==> Outside(rules, d, x)
    {
      DenylistMeans(rules, d, x);
      AllowlistMeans(rules, d, x);
    }
  }

  lemma ModalitiesMean(rules: seq<Rule>, d: Dimension, xs: seq<string>)
    requires d == InputModality || d == OutputModality
    ensures AnyListed(Compiled(rules), d, xs) <==> exists x :: x in xs && Forbidden(rules, d, Lower(x))
    ensures AnyOutside(Compiled(rules), d, xs) <==> exists x :: x in xs && Outside(rules, d, Lower(x))
  {
    hide Compiled, OnDenylist, OffAllowlist, Forbidden, Outside, Lower;
    var c := Compiled(rules);
    ListsMean(rules, d);
    forall x | x in xs && Forbidden(rules, d, Lower(x)) ensures AnyListed(c, d, xs) {
      var i :| 0 <= i < |xs| && xs[i] == x;
      assert OnDenylist(c, d, Norm(d, xs[i]));
    }
    forall x | x in xs && Outside(rules, d, Lower(x)) ensures AnyOutside(c, d, xs) {
      var i :| 0 <= i < |xs| && xs[i] == x;
      assert OffAllowlist(c, d, Norm(d, xs[i]));
    }
    if AnyOutside(c, d, xs) {
      var i :| 0 <= i < |xs| && OffAllowlist(c, d, Norm(d, xs[i]));
      assert xs[i] in xs;
    }
  }

  lemma ToolsMean(rules: seq<Rule>, names: seq<string>)
    ensures (exists i :: 0 <= i < |names| && ToolRefused(Compiled(rules), names[i]))
       <==> exists n :: n in names && n != "" && Refused(rules, ToolName, n)
  {
    hide Compiled, OnDenylist, OffAllowlist, Forbidden, Outside;
    ListsMean(rules, ToolName);
    if i :| 0 <= i < |names| && ToolRefused(Compiled(rules), names[i]) {
      assert names[i] in names && Refused(rules, ToolName, names[i]);
    }
    if n :| n in names && n != "" && Refused(rules, ToolName, n) {
      var i :| 0 <= i < |names| && names[i] == n;
      assert ToolRefused(Compiled(rules), names[i]);
    }
  }

  lemma UseDecision(ctx: Context, rules: seq<Rule>)
    ensures EvaluateUse(ctx, Compiled(rules)).None? <==> UsePermitted(ctx, rules)
  {
    hide Compiled, OnDenylist, OffAllowlist, Forbidden, Outside, Disabled, Over, Exceeds, SwitchedOff, ToolNames,
      ToolRefused;
    var c := Compiled(rules);
    ToolsMean(rules, ToolNames(ctx));
    ListsMean(rules, DataClassification);
    forall f ensures SwitchedOff(c, f) <==> Disabled(rules, f) {
      FeatureMeans(rules, f);
    }
    forall l, n ensures Exceeds(c, l, n) <==> Over(rules, l, n) {
      CeilingMeans(rules, l, n);
    }
    ResidencyMeans(rules);
  }

  /** A request passes compilation and evaluation iff the rules in force permit it. */
  lemma RequestDecision(ctx: Context, rules: seq<Rule>)
    ensures EvaluateRequest(ctx, Compiled(rules)).None? <==> RequestPermitted(ctx, rules)
  {
    hide Compiled, OnDenylist, OffAllowlist, Forbidden, Outside, EvaluateUse, UsePermitted, AnyListed, AnyOutside;
    ListsMean(rules, Model);
    ListsMean(rules, ModelFamily);
    ListsMean(rules, ModelCategory);
    ModalitiesMean(rules, InputModality, ctx.inputModalities.GetOr(["text"]));
    ModalitiesMean(rules, OutputModality, ctx.outputModalities.GetOr(["text"]));
    UseDecision(ctx, rules);
  }

  /** A route passes compilation and evaluation iff the rules in force permit it. */
  lemma RouteDecision(k: Candidate, rules: seq<Rule>)
    ensures EvaluateRoute(k, Compiled(rules)).None? <==> RoutePermitted(k, rules)
  {
    hide Compiled, OnDenylist, OffAllowlist, Forbidden, Outside, LacksTag, TagMissing, Over, Capped, RegionMatches,
      RegionOf;
    ListsMean(rules, Provider);
    ListsMean(rules, Region);
    ResidencyMeans(rules);
    TagsMean(rules, k);
    CeilingMeans(rules, MaxCostPerRequest, k.estimatedCost.GetOr(0.0));
  }

  // ---------------------------------------------------------------- denial codes

  /** What a denial code claims about a request, over the rules in force. */
  ghost predicate RequestCause(code: DenialCode, ctx: Context, rules: seq<Rule>) {
    var names := ToolNames(ctx);
    match code
    case ModelDenied => Refused(rules, Model, Lower(ctx.canonicalId))
    case ModelFamilyDenied => Checked(ctx.family).Some? && Refused(rules, ModelFamily, Checked(ctx.family).value)
    case ModelCategoryDenied =>
      Checked(ctx.category).Some? && Refused(rules, ModelCategory, Checked(ctx.category).value)
    case ModalityDenied =>
      || (exists m :: m in ctx.inputModalities.GetOr(["text"]) && Refused(rules, InputModality, Lower(m)))
      || (exists m :: m in ctx.outputModalities.GetOr(["text"]) && Forbidden(rules, OutputModality, Lower(m)))
    case ToolsDenied =>
      names != [] && (Disabled(rules, Tools) || (ctx.parallelToolCalls && Disabled(rules, ParallelTools)))
    case ToolDenied => exists n :: n in names && n != "" && Refused(rules, ToolName, n)
    case StructuredOutputDenied => ctx.structuredOutput && Disabled(rules, StructuredOutput)
    case ReasoningDenied => ctx.reasoning.Some? && Disabled(rules, Reasoning)
    case RequestLimitDenied =>
      || (names != [] && Over(rules, MaxTools, |names| as real))
      || (ctx.reasoning.Some? && ctx.reasoning.value.maxTokens.Some?
          && Over(rules, MaxReasoningTokens, ctx.reasoning.value.maxTokens.value))
      || (ctx.maxTokens.Some? && Over(rules, MaxOutputTokens, ctx.maxTokens.value))
    case DataPolicyDenied =>
      ctx.dataClassification.Some? && Refused(rules, DataClassification, ctx.dataClassification.value)
    case _ => false
  }

  /** What a denial code claims about a route. */
  ghost predicate RouteCause(code: DenialCode, k: Candidate, rules: seq<Rule>) {
    match code
    case ProviderDenied => Refused(rules, Provider, Lower(k.providerId))
    case RegionDenied => Refused(rules, Region, RegionOf(k))
    case DataResidencyDenied => !Resident(ResidencyOf(rules), RegionOf(k))
    case ProviderTagDenied => TagMissing(rules, k)
    case CostPolicyDenied =>
      Capped(rules, MaxCostPerRequest)
      && (k.estimatedCost.None? || Over(rules, MaxCostPerRequest, k.estimatedCost.value))
    case _ => false
  }

  lemma UseDenialIsTruthful(ctx: Context, rules: seq<Rule>, code: DenialCode)
    requires EvaluateUse(ctx, Compiled(rules)) == Some(code)
    ensures RequestCause(code, ctx, rules)
  {
    hide Compiled, OnDenylist, OffAllowlist, Forbidden, Outside, Disabled, Over, Exceeds, SwitchedOff, ToolNames,
      ToolRefused;
    var c := Compiled(rules);
    ToolsMean(rules, ToolNames(ctx));
    ListsMean(rules, DataClassification);
    forall f ensures SwitchedOff(c, f) <==> Disabled(rules, f) {
      FeatureMeans(rules, f);
    }
    forall l, n ensures Exceeds(c, l, n) <==> Over(rules, l, n) {
      CeilingMeans(rules, l, n);
    }
    ResidencyMeans(rules);
  }

  /** The code of a denied request names a check that the rules in force do fail. */
  lemma RequestDenialIsTruthful(ctx: Context, rules: seq<Rule>, code: DenialCode)
    requires EvaluateRequest(ctx, Compiled(rules)) == Some(code)
    ensures RequestCause(code, ctx, rules)
  {
    hide Compiled, OnDenylist, OffAllowlist, Forbidden, Outside, EvaluateUse, AnyListed, AnyOutside, Disabled, Over;
    ListsMean(rules, Model);
    ListsMean(rules, ModelFamily);
    ListsMean(rules, ModelCategory);
    ModalitiesMean(rules, InputModality, ctx.inputModalities.GetOr(["text"]));
    ModalitiesMean(rules, OutputModality, ctx.outputModalities.GetOr(["text"]));
    if EvaluateUse(ctx, Compiled(rules)) == Some(code) {
      UseDenialIsTruthful(ctx, rules, code);
    }
  }

  /** The code of an excluded route names a check that the rules in force do fail. */
  lemma RouteDenialIsTruthful(k: Candidate, rules: seq<Rule>, code: DenialCode)
    requires EvaluateRoute(k, Compiled(rules)) == Some(code)
    ensures RouteCause(code, k, rules)
  {
    hide Compiled, OnDenylist, OffAllowlist, Forbidden, Outside, LacksTag, TagMissing, Over, Capped, RegionMatches,
      RegionOf;
    ListsMean(rules, Provider);
    ListsMean(rules, Region);
    ResidencyMeans(rules);
    TagsMean(rules, k);
    CeilingMeans(rules, MaxCostPerRequest, k.estimatedCost.GetOr(0.0));
  }

  // ---------------------------------------------------------------- what does not act as it reads

  /** An allowlist of output modalities is compiled but never looked at. */
  lemma OutputAllowlistIsIgnored(ctx: Context, c: Constraints)
    ensures EvaluateRequest(ctx, c) == EvaluateRequest(ctx, c.(allowed := c.allowed - {OutputModality}))
  {
    hide ToolNames, Matches, Checked;
    var n := c.(allowed := c.allowed - {OutputModality});
    assert forall d, x :: OnDenylist(c, d, x) == OnDenylist(n, d, x);
    assert forall d, x :: d != OutputModality ==> OffAllowlist(c, d, x) == OffAllowlist(n, d, x);
    hide OnDenylist, OffAllowlist;
    assert EvaluateUse(ctx, c) == EvaluateUse(ctx, n);
    hide EvaluateUse;
  }

  /** A rule for the temperature, wherever it stands, is compiled to nothing, and no rules at all decide
      on the temperature of a request. */
  lemma TemperatureIsNotGoverned(a: seq<Rule>, r: Rule, b: seq<Rule>, ctx: Context, t: Option<real>)
    requires r.target.Temperature?
    ensures Compiled(a + [r] + b) == Compiled(a + b)
    ensures EvaluateRequest(ctx.(temperature := t), Compiled(a + b)) == EvaluateRequest(ctx, Compiled(a + b))
  {
    hide EvaluateRequest, ApplyAll;
    IdleRule(a, r, b);
    ResidencyMeans(a + b);
    TemperatureUnread(ctx, t, Compiled(a + b));
  }

  lemma TemperatureUnread(ctx: Context, t: Option<real>, c: Constraints)
    requires c.temperatureMin.None? && c.temperatureMax.None?
    ensures EvaluateRequest(ctx.(temperature := t), c) == EvaluateRequest(ctx, c)
  {
    hide OnDenylist, OffAllowlist, AnyListed, AnyOutside, EvaluateUse, Lower, Checked;
    UseUnread(ctx, t, c);
  }

  lemma UseUnread(ctx: Context, t: Option<real>, c: Constraints)
    requires c.temperatureMin.None? && c.temperatureMax.None?
    ensures EvaluateUse(ctx.(temperature := t), c) == EvaluateUse(ctx, c)
  {
    assert ToolNames(ctx.(temperature := t)) == ToolNames(ctx);
    hide OnDenylist, OffAllowlist, Exceeds, SwitchedOff, ToolRefused, ToolNames;
  }

  lemma {:induction false} ResidencySkips(a: seq<Rule>, r: Rule, b: seq<Rule>)
    requires r.target.ProviderTag?
    ensures ResidencyOf(a + [r] + b) == ResidencyOf(a + b)
  {
    var s, t := a + [r] + b, a + b;
    if b == [] {
      assert s[..|s| - 1] == a == t;
    } else {
      assert s[..|s| - 1] == a + [r] + b[..|b| - 1] && t[..|t| - 1] == a + b[..|b| - 1];
      ResidencySkips(a, r, b[..|b| - 1]);
    }
  }

  /** A deny rule for a provider tag, wherever it stands, does the opposite when its operator is `in`
      or `equals`: it excludes the routes that do not carry the tag, and those that do are decided
      as without it. With any other operator it decides nothing. */
  lemma DenyingATag(a: seq<Rule>, r: Rule, b: seq<Rule>, k: Candidate)
    requires r.target.ProviderTag? && r.effect.Deny?
    ensures var with, without := EvaluateRoute(k, Compiled(a + [r] + b)), EvaluateRoute(k, Compiled(a + b));
            if r.operator.In? || r.operator.Equals? then
              with.None? <==> without.None? && forall t :: t in r.value.texts ==> Carries(k, t)
            else with == without
  {
    hide EvaluateRoute, RoutePermitted, Compiled, Carries;
    if RequiresTag(r) {
      RouteDecision(k, a + [r] + b);
      RouteDecision(k, a + b);
      TagDecides(a, r, b, k);
    } else {
      NoTag(Compiled(a), r);
      IdleRule(a, r, b);
    }
  }

  /** A rule that changes nothing where it stands might as well not be there. */
  lemma IdleRule(a: seq<Rule>, r: Rule, b: seq<Rule>)
    requires Apply(Compiled(a), r) == Compiled(a)
    ensures Compiled(a + [r] + b) == Compiled(a + b)
  {
    hide Apply, ApplyAll;
    ApplyAllConcat(Unconstrained(), a + [r], b);
    ApplyAllConcat(Unconstrained(), a, [r]);
    ApplyAllConcat(Unconstrained(), a, b);
    ApplyOne(Compiled(a), r);
  }

  lemma NoTag(c: Constraints, r: Rule)
    requires r.target.ProviderTag? && !RequiresTag(r)
    ensures Apply(c, r) == c
  {
    hide Union;
  }

  lemma TagDecides(a: seq<Rule>, r: Rule, b: seq<Rule>, k: Candidate)
    requires r.target.ProviderTag? && RequiresTag(r)
    ensures RoutePermitted(k, a + [r] + b)
       <==> RoutePermitted(k, a + b) && forall t :: t in r.value.texts ==> Carries(k, t)
  {
    hide Carries, Listed, NormSet, Matches, ResidencyOf, RegionMatches, RegionOf, Lower;
    var s, t := a + [r] + b, a + b;
    assert forall q :: q in s <==> q == r || q in t;
    ResidencySkips(a, r, b);
    SameLists(s, t, r);
    SameCeilings(s, t, r);
    hide Refused, Capped, Over, RequiresTag;
  }

  lemma SameLists(s: seq<Rule>, t: seq<Rule>, r: Rule)
    requires (forall q :: q in s <==> q == r || q in t) && r.target.ProviderTag?
    ensures forall d, x :: Refused(s, d, x) <==> Refused(t, d, x)
  {
    hide Listed, NormSet, Matches;
    forall d ensures !Denies(r, d) && !Allows(r, d) {
    }
    hide Denies, Allows;
    forall d, e ensures Common(s, d, e) <==> Common(t, d, e) {
    }
  }

  lemma SameCeilings(s: seq<Rule>, t: seq<Rule>, r: Rule)
    requires (forall q :: q in s <==> q == r || q in t) && r.target.ProviderTag?
    ensures forall l :: Capped(s, l) <==> Capped(t, l)
    ensures forall l, n :: Over(s, l, n) <==> Over(t, l, n)
  {
    forall l ensures !Caps(r, l) {
    }
    hide Caps;
  }
}
