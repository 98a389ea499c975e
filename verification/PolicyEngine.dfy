/** The policy engine: compiled policies served from a cache that the lifecycle operations
    invalidate (packages/policy/src/policy-engine.ts). */
module PolicyEngine {
  import opened Collections
  import opened Sorting
  import opened Text
  import opened PolicyCompiler
  import opened PolicyRepository
  import opened PolicyCache

  datatype ModelRule = ModelRule(effect: Effect, pattern: string)

  /** A request for the effective policy of a tenant's key. */
  datatype Query = Query(
    organizationId: string, workspaceId: string, apiKeyId: Option<string>,
    requestConstraints: Option<RequestConstraints>, apiKeyModelRules: seq<ModelRule>, skipCache: bool)

  // ---------------------------------------------------------------- what a query should see

  function CacheKey(q: Query): string {
    q.organizationId + ":" + q.workspaceId + ":" + q.apiKeyId.GetOr("none")
  }

  function ScopeItem(s: Store, scope: Scope, scopeId: Option<string>): seq<HierarchyItem> {
    match InEffect(s, scope, scopeId)
    case None => []
    case Some((p, v)) => [HierarchyItem(scope, scopeId, p.id, v.version, v.rules)]
  }

  predicate Given(id: Option<string>) {
    id.Some? && id.value != ""
  }

  /** The policies in effect for a query, from the outermost scope inwards. */
  function StoredHierarchy(s: Store, q: Query): seq<HierarchyItem> {
    ScopeItem(s, Global, None)
    + (if q.organizationId != "" then ScopeItem(s, Organization, Some(q.organizationId)) else [])
    + (if q.workspaceId != "" then ScopeItem(s, Workspace, Some(q.workspaceId)) else [])
    + (if Given(q.apiKeyId) then ScopeItem(s, ApiKey, q.apiKeyId) else [])
  }

  function WithoutStars(s: string): string {
    if s == [] then [] else (if s[0] == '*' then [] else [s[0]]) + WithoutStars(s[1..])
  }

  function ModelRuleToRule(r: ModelRule): Rule {
    var text := WithoutStars(r.pattern);
    Rule(Names(Model), r.effect, if '*' in r.pattern then Contains else Equals, Value([text], text, text != "", None))
  }

  function KeyItem(q: Query): seq<HierarchyItem> {
    if Given(q.apiKeyId) && q.apiKeyModelRules != [] then
      var rules := seq(|q.apiKeyModelRules|,
                       i requires 0 <= i < |q.apiKeyModelRules| => ModelRuleToRule(q.apiKeyModelRules[i]));
      [HierarchyItem(ApiKey, q.apiKeyId, "pol_virtual_key_" + q.apiKeyId.value, 1, rules)]
    else []
  }

  /** The policy compiled from the current contents of the repository. */
  function Fresh(s: Store, q: Query): EffectivePolicy {
    Compile(StoredHierarchy(s, q) + KeyItem(q), q.requestConstraints)
  }

  /** The same without anything that came with the request. */
  function FreshStored(s: Store, q: Query): EffectivePolicy {
    Compile(StoredHierarchy(s, q), None)
  }

  /** A query that brings neither constraints nor model rules of its own. */
  predicate Plain(q: Query) {
    RequestRules(q.requestConstraints) == [] && KeyItem(q) == []
  }

  // ---------------------------------------------------------------- steps

  datatype System = System(store: Store, cache: Cache, ttl: nat)

  datatype Event =
    | Create(input: CreatePolicyInput)
    | ChangePolicy(id: string, change: UpdatePolicyInput)
    | NewVersion(id: string, rules: seq<Rule>)
    | ActivateVersion(id: string, n: int)
    | Find(query: Query)

  function Hit(sys: System, q: Query, now: nat): Option<EffectivePolicy> {
    if q.skipCache then None else Served(sys.cache, CacheKey(q), now)
  }

  function Flattened(p: EffectivePolicy): HierarchyItem {
    HierarchyItem(Global, None, "cached", 1, p.rules)
  }

  /** A request's constraints are compiled on top of a cached policy's rules; a key's model rules
      are not looked at when the cache answers. */
  function Answer(sys: System, q: Query, now: nat): EffectivePolicy {
    match Hit(sys, q, now)
    case Some(p) => if q.requestConstraints.Some? then Compile([Flattened(p)], q.requestConstraints) else p
    case None => Fresh(sys.store, q)
  }

  function AfterFind(sys: System, q: Query, now: nat): System {
    if Hit(sys, q, now).Some? then sys
    else
      var key := CacheKey(q);
      sys.(cache := sys.cache[key := EntryFor(key, Fresh(sys.store, q), now + sys.ttl)])
  }

  function Invalidated(c: Cache, scope: Scope, scopeId: Option<string>): Cache {
    if scope == Global then map[]
    else if Given(scopeId) then Without(c, scope, scopeId.value)
    else c
  }

  /** A changed repository, and the scope of the policy that changed. */
  datatype Change = Change(store: Store, scope: Scope, scopeId: Option<string>)

  /** What a lifecycle operation does to the repository: nothing if it throws. */
  function Changed(s: Store, e: Event, now: nat): Option<Change> {
    match e
    case Create(input) => Some(Change(Created(s, input, now), input.scopeType, input.scopeId))
    case ChangePolicy(id, change) =>
      var r := Update(s, id, change);
      if r.Failure? then None else Some(Change(WithPolicy(s, r.value), r.value.scopeType, r.value.scopeId))
    case NewVersion(id, rules) =>
      var p := Get(s.policies, id);
      if p.None? then None else Some(Change(WithVersion(s, id, rules), p.value.scopeType, p.value.scopeId))
    case ActivateVersion(id, n) =>
      var r := Activate(s, id, n);
      if r.Failure? then None else Some(Change(WithPolicy(s, r.value), r.value.scopeType, r.value.scopeId))
    case Find(_) => None
  }

  /** A lifecycle operation changes the repository and drops from the cache what its scope concerns. */
  function Step(sys: System, e: Event, now: nat): System {
    if e.Find? then AfterFind(sys, e.query, now)
    else
      match Changed(sys.store, e, now)
      case None => sys
      case Some(c) => sys.(store := c.store, cache := Invalidated(sys.cache, c.scope, c.scopeId))
  }

  function Run(sys: System, events: seq<(Event, nat)>): System {
    if events == [] then sys
    else
      var (e, now) := events[|events| - 1];
      Step(Run(sys, events[..|events| - 1]), e, now)
  }

  function Initial(ttl: nat): System {
    System(Seeded(), map[], ttl)
  }

  // ---------------------------------------------------------------- keys

  predicate WithoutColons(q: Query) {
    ':' !in q.organizationId && ':' !in q.workspaceId && ':' !in q.apiKeyId.GetOr("")
  }

  /** Ids that can be told apart in a cache key. */
  predicate Keyable(q: Query) {
    WithoutColons(q) && q.apiKeyId != Some("none")
  }

  predicate SameTenant(a: Query, b: Query) {
    a.organizationId == b.organizationId && a.workspaceId == b.workspaceId && a.apiKeyId == b.apiKeyId
  }

  lemma KeyForm(q: Query)
    ensures CacheKey(q) == q.organizationId + [':'] + (q.workspaceId + [':'] + q.apiKeyId.GetOr("none"))
  {
    var k := q.apiKeyId.GetOr("none");
    assert q.organizationId + ":" + q.workspaceId + ":" + k == q.organizationId + [':'] + (q.workspaceId + [':'] + k);
  }

  lemma KeyParts(q: Query)
    requires WithoutColons(q)
    ensures Split(CacheKey(q), ':') == [q.organizationId, q.workspaceId, q.apiKeyId.GetOr("none")]
  {
    hide CacheKey, Split;
    var k := q.apiKeyId.GetOr("none");
    KeyForm(q);
    SplitFirst(q.organizationId, ':', q.workspaceId + [':'] + k);
    SplitFirst(q.workspaceId, ':', k);
    assert ':' !in "none";
    SplitWhole(k, ':');
  }

  lemma KeysIdentifyTenants(a: Query, b: Query)
    requires Keyable(a) && Keyable(b)
    ensures CacheKey(a) == CacheKey(b) <==> SameTenant(a, b)
  {
    hide CacheKey, Split;
    KeyForm(a);
    KeyForm(b);
    KeyParts(a);
    KeyParts(b);
  }

  lemma KeyColons(q: Query)
    ensures |Split(CacheKey(q), ':')| == 3 <==> WithoutColons(q)
  {
    hide CacheKey, Split;
    var k := q.apiKeyId.GetOr("none");
    KeyForm(q);
    SplitCounts(q.organizationId, ':', q.workspaceId + [':'] + k);
    SplitCounts(q.workspaceId, ':', k);
    SplitCounts(k, ':', "");
    assert ':' !in "none";
  }

  /** Another tenant with the same key: a colon can be read as the end of an id, and no API key as one
      called `none`. */
  lemma Namesake(q: Query) returns (b: Query)
    requires !WithoutColons(q) || q.apiKeyId.None? || q.apiKeyId == Some("none")
    ensures CacheKey(b) == CacheKey(q) && !SameTenant(q, b)
  {
    hide CacheKey;
    var o, w, k := q.organizationId, q.workspaceId, q.apiKeyId.GetOr("none");
    if ':' in o {
      var i := ColonIn(o);
      b := q.(organizationId := o[..i], workspaceId := o[i + 1..] + [':'] + w);
      CutAtColon(o, w + [':'] + k, i);
      Regroup(o[i + 1..], w, k);
    } else if ':' in w {
      var i := ColonIn(w);
      b := q.(organizationId := o + [':'] + w[..i], workspaceId := w[i + 1..]);
      CutAtColon(w, k, i);
      Regroup(o, w[..i], w[i + 1..] + [':'] + k);
    } else if ':' in q.apiKeyId.GetOr("") {
      var i := ColonIn(k);
      b := q.(workspaceId := w + [':'] + k[..i], apiKeyId := Some(k[i + 1..]));
      CutAtColon(k, "", i);
      Regroup(w, k[..i], k[i + 1..]);
    } else {
      b := q.(apiKeyId := if q.apiKeyId.None? then Some("none") else None);
    }
    KeyForm(q);
    KeyForm(b);
  }

  /** No other tenant shares a tenant's key exactly if its ids are without colons and it has an API key,
      not called `none`. */
  lemma KeysAreUnique(q: Query)
    ensures (forall b :: CacheKey(b) == CacheKey(q) ==> SameTenant(q, b)) <==> Keyable(q) && q.apiKeyId.Some?
  {
    hide CacheKey, Split;
    if Keyable(q) && q.apiKeyId.Some? {
      forall b | CacheKey(b) == CacheKey(q) ensures SameTenant(q, b) {
        KeyColons(q);
        KeyColons(b);
        KeyParts(q);
        KeyParts(b);
      }
    } else {
      var b := Namesake(q);
    }
  }

  // ---------------------------------------------------------------- coherence

  /** The entry kept for a tenant is a fresh compile, filed under that tenant's scopes. */
  ghost predicate EntryCoherent(sys: System, q: Query) {
    CacheKey(q) in sys.cache ==>
      var e := sys.cache[CacheKey(q)];
      && e.policy == FreshStored(sys.store, q)
      && e.organizationId == q.organizationId
      && e.workspaceId == q.workspaceId
      && e.apiKeyId == (if Given(q.apiKeyId) then q.apiKeyId else None)
  }

  /** No tenant's cached policy differs from a compile of what the repository holds now. */
  ghost predicate Coherent(sys: System) {
    forall q :: Keyable(q) ==> EntryCoherent(sys, q)
  }

  lemma InitialCoherent(ttl: nat)
    ensures Valid(Initial(ttl).store) && Coherent(Initial(ttl))
  {
    assert Known(BASELINE, 1);
  }

  /** The scope of a policy that a query's hierarchy draws on. */
  predicate DrawsOn(q: Query, scope: Scope, scopeId: Option<string>) {
    match scope
    case Global => scopeId.None?
    case Organization => q.organizationId != "" && scopeId == Some(q.organizationId)
    case Workspace => q.workspaceId != "" && scopeId == Some(q.workspaceId)
    case ApiKey => Given(q.apiKeyId) && scopeId == q.apiKeyId
  }

  lemma HierarchyFrame(s: Store, t: Store, p: Policy, q: Query)
    requires Valid(s) && ChangesOnly(s, t, p)
    requires !DrawsOn(q, p.scopeType, p.scopeId)
    ensures StoredHierarchy(s, q) == StoredHierarchy(t, q)
  {
    hide Valid, ChangesOnly, InEffect;
    if !At(p, Global, None) {
      ChangeIsScoped(s, t, p, Global, None);
    }
    if !At(p, Organization, Some(q.organizationId)) {
      ChangeIsScoped(s, t, p, Organization, Some(q.organizationId));
    }
    if !At(p, Workspace, Some(q.workspaceId)) {
      ChangeIsScoped(s, t, p, Workspace, Some(q.workspaceId));
    }
    if !At(p, ApiKey, q.apiKeyId) {
      ChangeIsScoped(s, t, p, ApiKey, q.apiKeyId);
    }
  }

  /** Changing one policy and dropping what its scope concerns keeps the cache coherent. */
  lemma ChangeKeepsCoherence(sys: System, t: Store, p: Policy)
    requires Valid(sys.store) && ChangesOnly(sys.store, t, p) && Coherent(sys)
    ensures Coherent(sys.(store := t, cache := Invalidated(sys.cache, p.scopeType, p.scopeId)))
  {
    hide Valid, ChangesOnly, StoredHierarchy, Compile, CacheKey;
    var after := sys.(store := t, cache := Invalidated(sys.cache, p.scopeType, p.scopeId));
    forall q | Keyable(q) ensures EntryCoherent(after, q) {
      assert EntryCoherent(sys, q);
      if CacheKey(q) in after.cache {
        assert !DrawsOn(q, p.scopeType, p.scopeId);
        HierarchyFrame(sys.store, t, p, q);
      }
    }
  }

  lemma PlainIsStored(s: Store, q: Query)
    requires Plain(q)
    ensures Fresh(s, q) == FreshStored(s, q)
  {
    hide StoredHierarchy;
    var h := StoredHierarchy(s, q);
    assert h + [] == h;
    RequestAsRules(ApplyAll(Unconstrained(), RulesOf(Sort(Before, h))), q.requestConstraints);
    ApplyNone(ApplyAll(Unconstrained(), RulesOf(Sort(Before, h))));
  }

  lemma TenantsShare(s: Store, a: Query, b: Query)
    requires SameTenant(a, b)
    ensures FreshStored(s, a) == FreshStored(s, b)
  {
  }

  lemma FindKeepsCoherence(sys: System, q: Query, now: nat)
    requires Coherent(sys) && Keyable(q)
    requires Hit(sys, q, now).Some? || Plain(q)
    ensures Coherent(AfterFind(sys, q, now))
  {
    hide Compile, StoredHierarchy, KeyItem, CacheKey, Fresh, FreshStored, Plain, Split;
    var after := AfterFind(sys, q, now);
    if Hit(sys, q, now).None? {
      PlainIsStored(sys.store, q);
      KeyParts(q);
      forall b | Keyable(b) ensures EntryCoherent(after, b) {
        assert EntryCoherent(sys, b);
        KeysIdentifyTenants(q, b);
        if SameTenant(q, b) {
          TenantsShare(sys.store, q, b);
        }
      }
    }
  }

  /** Lookups that may write the cache bring nothing of their own. */
  predicate Admissible(sys: System, e: Event, now: nat) {
    e.Find? ==> Keyable(e.query) && (Hit(sys, e.query, now).Some? || Plain(e.query))
  }

  predicate AdmissibleRun(sys: System, events: seq<(Event, nat)>) {
    events == [] ||
    (AdmissibleRun(sys, events[..|events| - 1])
     && Admissible(Run(sys, events[..|events| - 1]), events[|events| - 1].0, events[|events| - 1].1))
  }

  lemma ChangeScoped(s: Store, e: Event, now: nat) returns (p: Policy)
    requires Valid(s) && Changed(s, e, now).Some?
    ensures var c := Changed(s, e, now).value;
            Valid(c.store) && At(p, c.scope, c.scopeId) && ChangesOnly(s, c.store, p)
  {
    hide Valid, ChangesOnly, Put, Created, WithVersion, WithPolicy;
    match e
    case Create(input) =>
      CreatedIsScoped(s, input, now);
      p :| At(p, input.scopeType, input.scopeId) && ChangesOnly(s, Created(s, input, now), p);
    case ChangePolicy(id, change) =>
      GetStored(s, id);
      p := Update(s, id, change).value;
      StoredIsScoped(s, p);
    case NewVersion(id, rules) =>
      GetStored(s, id);
      p := Get(s.policies, id).value;
      VersionIsScoped(s, p, rules);
    case ActivateVersion(id, n) =>
      GetStored(s, id);
      p := Activate(s, id, n).value;
      StoredIsScoped(s, p);
  }

  lemma StepKeepsCoherence(sys: System, e: Event, now: nat)
    requires Valid(sys.store) && Coherent(sys) && Admissible(sys, e, now)
    ensures Valid(Step(sys, e, now).store) && Coherent(Step(sys, e, now))
  {
    hide Valid, Coherent, Invalidated, ChangesOnly, AfterFind, Plain, Hit, Changed, Keyable;
    if e.Find? {
      FindKeepsCoherence(sys, e.query, now);
      AfterFindStore(sys, e.query, now);
    } else if Changed(sys.store, e, now).Some? {
      var p := ChangeScoped(sys.store, e, now);
      ChangeKeepsCoherence(sys, Changed(sys.store, e, now).value.store, p);
    }
  }

  lemma AfterFindStore(sys: System, q: Query, now: nat)
    ensures AfterFind(sys, q, now).store == sys.store
  {
  }

  /** Over any run of lifecycle operations and lookups, at whatever times, the cache never disagrees
      with a compile of the repository as it is. */
  lemma {:induction false} CacheStaysCoherent(ttl: nat, events: seq<(Event, nat)>)
    requires AdmissibleRun(Initial(ttl), events)
    ensures Valid(Run(Initial(ttl), events).store) && Coherent(Run(Initial(ttl), events))
  {
    hide Step, Coherent, Valid, Admissible;
    if events == [] {
      InitialCoherent(ttl);
    } else {
      CacheStaysCoherent(ttl, events[..|events| - 1]);
      var (e, now) := events[|events| - 1];
      StepKeepsCoherence(Run(Initial(ttl), events[..|events| - 1]), e, now);
    }
  }

  /** What a lookup gets from a coherent cache: the constraints and rules of compiling the current
      repository with the request's constraints, whether or not the cache answers. */
  lemma AnswersAreFresh(sys: System, q: Query, now: nat)
    requires Coherent(sys) && Keyable(q)
    requires Hit(sys, q, now).Some? || KeyItem(q) == []
    ensures var expected := Compile(StoredHierarchy(sys.store, q), q.requestConstraints);
            && Answer(sys, q, now).constraints == expected.constraints
            && Answer(sys, q, now).rules == expected.rules
            && (q.requestConstraints.None? || Hit(sys, q, now).None? ==> Answer(sys, q, now) == expected)
  {
    hide Compile, StoredHierarchy, KeyItem, CacheKey;
    assert EntryCoherent(sys, q);
    var h := StoredHierarchy(sys.store, q);
    assert h + [] == h;
    RecompileFlattened(h, None, q.requestConstraints);
  }

  /** Every plain lookup of every run is answered with a compile of the repository as it is then. */
  lemma EveryLookupIsFresh(ttl: nat, events: seq<(Event, nat)>, q: Query, now: nat)
    requires AdmissibleRun(Initial(ttl), events) && Keyable(q)
    requires q.requestConstraints.None? && KeyItem(q) == []
    ensures Answer(Run(Initial(ttl), events), q, now) == FreshStored(Run(Initial(ttl), events).store, q)
  {
    hide Answer, Coherent, StoredHierarchy, Compile, KeyItem;
    CacheStaysCoherent(ttl, events);
    AnswersAreFresh(Run(Initial(ttl), events), q, now);
  }

  lemma SortOne(a: HierarchyItem)
    ensures Sort(Before, [a]) == [a]
    ensures RulesOf([a]) == a.rules && VersionsOf([a]) == map[a.policyId := a.version]
  {
    assert [a][..0] == [] && [] + a.rules == a.rules;
    assert VersionsOf([]) == map[];
  }

  lemma SortTwo(a: HierarchyItem, b: HierarchyItem)
    requires Before(a, b)
    ensures Sort(Before, [a, b]) == [a, b]
    ensures RulesOf([a, b]) == a.rules + b.rules
  {
    SortOne(a);
    SortOne(b);
    assert [a, b][1..] == [b] && [a, b][..1] == [a];
    assert [a] + [b] == [a, b];
  }

  /** The only effect of being answered from the cache that shows is on the recorded versions. */
  lemma CachedVersions(sys: System, q: Query, now: nat)
    requires Hit(sys, q, now).Some? && q.requestConstraints.Some?
    ensures Answer(sys, q, now).policyVersions == map["cached" := 1]
  {
    SortOne(Flattened(Hit(sys, q, now).value));
  }

  // ---------------------------------------------------------------- lookups that bring their own

  lemma ListRulesShow(d: Dimension, denied: Option<seq<string>>, allowed: Option<seq<string>>, c: Constraints)
    ensures var n := NarrowNames(c, d, denied, allowed);
            && n.denied.Keys == c.denied.Keys + (if denied.Some? then {d} else {})
            && n.allowed.Keys == c.allowed.Keys + (if allowed.Some? then {d} else {})
            && n.ceilings == c.ceilings && n.requiredDataResidency == c.requiredDataResidency
  {
  }

  /** Any constraint of a request shows in the constraints compiled from no rules. */
  lemma RequestsShow(request: Option<RequestConstraints>)
    ensures Narrow(Unconstrained(), request) == Unconstrained() <==> RequestRules(request) == []
  {
    hide NarrowNames;
    if request.Some? {
      var q := request.value;
      var c1 := NarrowNames(Unconstrained(), Model, q.deniedModels, q.allowedModels);
      var c2 := NarrowNames(c1, Provider, q.deniedProviders, q.allowedProviders);
      var c3 := NarrowNames(c2, Region, q.deniedRegions, q.allowedRegions);
      ListRulesShow(Model, q.deniedModels, q.allowedModels, Unconstrained());
      ListRulesShow(Provider, q.deniedProviders, q.allowedProviders, c1);
      ListRulesShow(Region, q.deniedRegions, q.allowedRegions, c2);
      if RequestRules(request) == [] {
        RequestAsRules(Unconstrained(), request);
        ApplyNone(Unconstrained());
      } else {
        var n := Narrow(Unconstrained(), request);
        assert n.denied.Keys == c3.denied.Keys && n.allowed.Keys == c3.allowed.Keys;
        assert n != Unconstrained();
      }
    }
  }

  /** The seeded repository holds one policy without rules. */
  lemma SeededHierarchy(q: Query)
    ensures StoredHierarchy(Seeded(), q) == [HierarchyItem(Global, None, BASELINE, 1, [])]
  {
    var s := Seeded();
    assert s.policies[1..] == [];
    forall scope, id: Option<string> | id.Some? ensures InEffect(s, scope, id) == None {
      assert PolicyByScope(s.policies[1..], scope, id) == None;
    }
    assert InEffect(s, Global, None) == Some((s.policies[0].1, s.versions[BASELINE][0]));
  }

  lemma SeededFresh(q: Query)
    ensures Fresh(Seeded(), q) == FreshStored(Seeded(), q) <==> Plain(q)
  {
    hide Sort, Narrow, RequestRules, ApplyAll, Seeded, StoredHierarchy, Before;
    if Plain(q) {
      PlainIsStored(Seeded(), q);
    } else {
      SeededHierarchy(q);
      var base := HierarchyItem(Global, None, BASELINE, 1, []);
      SortOne(base);
      ApplyNone(Unconstrained());
      if KeyItem(q) == [] {
        assert [base] + [] == [base];
        RequestsShow(q.requestConstraints);
        assert Narrow(Unconstrained(), None) == Unconstrained() by { RequestsShow(None); NoRequest(); }
      } else {
        var item := KeyItem(q)[0];
        assert [base] + KeyItem(q) == [base, item];
        BeforeKey(base, item);
        SortTwo(base, item);
        assert |item.rules| > 0;
      }
    }
  }

  lemma NoRequest()
    ensures RequestRules(None) == []
  {
  }

  lemma BeforeKey(a: HierarchyItem, b: HierarchyItem)
    requires b.scopeType == ApiKey
    ensures Before(a, b)
  {
  }

  /** A lookup that the cache cannot answer may be stored for others exactly when it brings nothing
      of its own: otherwise, already on the seeded repository, what it stores is not what the next
      lookup of that tenant should get. */
  lemma WhatMayBeStored(ttl: nat, q: Query, now: nat)
    requires Keyable(q)
    ensures Coherent(AfterFind(Initial(ttl), q, now)) <==> Plain(q)
  {
    hide Fresh, FreshStored, Plain, CacheKey, StoredHierarchy, Compile, Split, EntryFor;
    var sys := Initial(ttl);
    InitialCoherent(ttl);
    assert Hit(sys, q, now).None?;
    if Plain(q) {
      FindKeepsCoherence(sys, q, now);
    } else {
      SeededFresh(q);
      EntryKeepsPolicy(CacheKey(q), Fresh(sys.store, q), now + ttl);
      assert !EntryCoherent(AfterFind(sys, q, now), q);
    }
  }

  lemma EntryKeepsPolicy(key: string, p: EffectivePolicy, expiresAt: int)
    ensures EntryFor(key, p, expiresAt).policy == p
  {
  }

  // ---------------------------------------------------------------- where the promise ends

  /** The model rules of an API key are compiled last. */
  lemma KeyRulesLast(s: Store, q: Query)
    ensures Fresh(s, q).rules
         == Compile(StoredHierarchy(s, q), None).rules + if KeyItem(q) == [] then [] else KeyItem(q)[0].rules
  {
    hide StoredHierarchy, Sort, ApplyAll, Narrow, RulesOf, VersionsOf, Before;
    var h := StoredHierarchy(s, q);
    if KeyItem(q) == [] {
      assert h + [] == h;
    } else {
      var item := KeyItem(q)[0];
      assert KeyItem(q) == [item];
      forall x | x in h ensures Before(x, item) {
        BeforeKey(x, item);
      }
      SortLast(Before, h, item);
      ItemsSnoc(Sort(Before, h), item);
    }
  }

  /** A lookup gets the rules that it should, those of its API key included, exactly if the cache does
      not answer it or the key brings none: the cache never looks at them. */
  lemma KeyRulesCountIff(sys: System, q: Query, now: nat)
    requires Coherent(sys) && Keyable(q)
    ensures Answer(sys, q, now).rules == Fresh(sys.store, q).rules <==> Hit(sys, q, now).None? || KeyItem(q) == []
  {
    hide Compile, StoredHierarchy, CacheKey, Keyable, Narrow;
    KeyRulesLast(sys.store, q);
    if Hit(sys, q, now).Some? {
      assert EntryCoherent(sys, q);
      RecompileFlattened(StoredHierarchy(sys.store, q), None, q.requestConstraints);
      SameRules(StoredHierarchy(sys.store, q), q.requestConstraints);
      assert KeyItem(q) != [] ==> |KeyItem(q)[0].rules| > 0;
    }
  }

  lemma SameRules(h: seq<HierarchyItem>, request: Option<RequestConstraints>)
    ensures Compile(h, request).rules == Compile(h, None).rules
  {
  }

  function Keyed(rules: seq<ModelRule>): Query {
    Query("org", "ws", Some("key"), None, rules, false)
  }

  const DENIED := ModelRule(Deny, "gpt")

  lemma {:induction false} NoStars(s: string)
    requires '*' !in s
    ensures WithoutStars(s) == s
  {
    if s != [] {
      assert s == [s[0]] + s[1..];
      NoStars(s[1..]);
    }
  }

  lemma DenyingRule()
    ensures ModelRuleToRule(DENIED) == Rule(Names(Model), Deny, Equals, Value(["gpt"], "gpt", true, None))
  {
    NoStars("gpt");
  }

  lemma DenyingItem()
    ensures KeyItem(Keyed([DENIED]))
         == [HierarchyItem(ApiKey, Some("key"), "pol_virtual_key_" + "key", 1, [ModelRuleToRule(DENIED)])]
  {
    hide ModelRuleToRule;
    var items := KeyItem(Keyed([DENIED]));
    assert |items| == 1 && items[0].rules == [ModelRuleToRule(DENIED)];
  }

  /** On the seeded repository, the lookup of a key with a rule that denies a model is answered without
      any constraint, if there has been a lookup of the same tenant before. */
  lemma DeniedModelServed(ttl: nat, now: nat)
    requires now <= ttl
    ensures var sys := AfterFind(Initial(ttl), Keyed([]), 0);
            && Coherent(sys)
            && Answer(sys, Keyed([DENIED]), now).constraints == Unconstrained()
            && Fresh(sys.store, Keyed([DENIED])).constraints.denied == map[Model := ["gpt"]]
  {
    hide CacheKey, StoredHierarchy, Fresh, Coherent, Seeded, Split;
    var sys := AfterFind(Initial(ttl), Keyed([]), 0);
    InitialCoherent(ttl);
    FindKeepsCoherence(Initial(ttl), Keyed([]), 0);
    SameKey([DENIED]);
    EntryKeepsPolicy(CacheKey(Keyed([])), Fresh(Seeded(), Keyed([])), 0 + ttl);
    SeededAnswers();
  }

  lemma SameKey(rules: seq<ModelRule>)
    ensures CacheKey(Keyed(rules)) == CacheKey(Keyed([])) && Keyable(Keyed([])) && Plain(Keyed([]))
  {
  }

  lemma SeededAnswers()
    ensures Fresh(Seeded(), Keyed([])).constraints == Unconstrained()
    ensures Fresh(Seeded(), Keyed([DENIED])).constraints.denied == map[Model := ["gpt"]]
  {
    hide StoredHierarchy, Sort, Before, ModelRuleToRule;
    var base := HierarchyItem(Global, None, BASELINE, 1, []);
    SeededHierarchy(Keyed([]));
    SeededHierarchy(Keyed([DENIED]));
    SortOne(base);
    assert [base] + KeyItem(Keyed([])) == [base];
    DenyingItem();
    var item := KeyItem(Keyed([DENIED]))[0];
    assert [base] + [item] == [base, item];
    BeforeKey(base, item);
    SortTwo(base, item);
    assert base.rules + item.rules == [ModelRuleToRule(DENIED)];
    DenyingApplied();
  }

  lemma DenyingApplied()
    ensures ApplyAll(Unconstrained(), [ModelRuleToRule(DENIED)]).denied == map[Model := ["gpt"]]
  {
    DenyingRule();
    AlreadyLower("gpt");
    var r := ModelRuleToRule(DENIED);
    assert [r][..0] == [];
    assert Union(Model, None, ["gpt"]) == ["gpt"];
  }

  // ---------------------------------------------------------------- the engine object

  class PolicyEngine {
    const repository: InMemoryPolicyRepository
    const cache: InMemoryPolicyCache?

    constructor (repository: InMemoryPolicyRepository, cache: InMemoryPolicyCache?)
      ensures this.repository == repository && this.cache == cache
    {
      this.repository := repository;
      this.cache := cache;
    }

    function State(): System
      requires cache != null
      reads repository, cache
    {
      System(repository.Contents(), cache.entries, cache.defaultTtlMs)
    }

    method ScopePolicy(scope: Scope, scopeId: Option<string>) returns (r: seq<HierarchyItem>)
      ensures r == ScopeItem(repository.Contents(), scope, scopeId)
    {
      var policy := repository.GetPolicyByScope(scope, scopeId);
      if policy.Some? && policy.value.status.Active? {
        var version := repository.GetActiveVersion(policy.value.id);
        if version.Some? {
          return [HierarchyItem(scope, scopeId, policy.value.id, version.value.version, version.value.rules)];
        }
      }
      return [];
    }

    method ResolveHierarchy(q: Query) returns (hierarchy: seq<HierarchyItem>)
      ensures hierarchy == StoredHierarchy(repository.Contents(), q)
    {
      hide ScopeItem;
      hierarchy := ScopePolicy(Global, None);
      var items := [];
      if q.organizationId != "" {
        items := ScopePolicy(Organization, Some(q.organizationId));
      }
      hierarchy := hierarchy + items;
      items := [];
      if q.workspaceId != "" {
        items := ScopePolicy(Workspace, Some(q.workspaceId));
      }
      hierarchy := hierarchy + items;
      items := [];
      if Given(q.apiKeyId) {
        items := ScopePolicy(ApiKey, q.apiKeyId);
      }
      hierarchy := hierarchy + items;
    }

    method GetEffectivePolicy(q: Query, now: nat) returns (p: EffectivePolicy)
      modifies cache
      ensures cache == null ==> p == Fresh(repository.Contents(), q)
      ensures cache != null ==>
                && p == Answer(old(State()), q, now)
                && State() == AfterFind(old(State()), q, now)
    {
      hide Compile, EntryFor, InEffect, CacheKey, StoredHierarchy, KeyItem;
      var cacheKey := CacheKey(q);
      if !q.skipCache && cache != null {
        var cached := cache.Lookup(cacheKey, now);
        if cached.Some? {
          if q.requestConstraints.Some? {
            p := CompileEffectivePolicy([Flattened(cached.value)], q.requestConstraints);
            return;
          }
          return cached.value;
        }
      }
      var hierarchy := ResolveHierarchy(q);
      hierarchy := hierarchy + KeyItem(q);
      p := CompileEffectivePolicy(hierarchy, q.requestConstraints);
      if cache != null {
        cache.Set(cacheKey, p, None, now);
      }
    }

    method InvalidateScope(scope: Scope, scopeId: Option<string>)
      modifies cache
      ensures cache != null ==> cache.entries == Invalidated(old(cache.entries), scope, scopeId)
    {
      if cache == null {
        return;
      }
      match scope {
        case Global => cache.InvalidateGlobal();
        case Organization => if Given(scopeId) { cache.InvalidateOrganization(scopeId.value); }
        case Workspace => if Given(scopeId) { cache.InvalidateWorkspace(scopeId.value); }
        case ApiKey => if Given(scopeId) { cache.InvalidateApiKey(scopeId.value); }
      }
    }

    method CreatePolicy(input: CreatePolicyInput, now: nat) returns (policy: Policy, version: Version)
      modifies repository, cache
      ensures repository.Contents() == Created(old(repository.Contents()), input, now)
      ensures cache != null ==> State() == Step(old(State()), Create(input), now)
    {
      policy, version := repository.CreatePolicy(input, now);
      InvalidateScope(input.scopeType, input.scopeId);
    }

    method UpdatePolicy(id: string, input: UpdatePolicyInput, now: nat) returns (r: Result<Policy, RepositoryError>)
      requires Valid(repository.Contents())
      modifies repository, cache
      ensures r == Update(old(repository.Contents()), id, input)
      ensures cache != null ==> State() == Step(old(State()), ChangePolicy(id, input), now)
    {
      GetStored(repository.Contents(), id);
      r := repository.UpdatePolicy(id, input);
      if r.Success? {
        InvalidateScope(r.value.scopeType, r.value.scopeId);
      }
    }

    method CreateVersion(policyId: string, rules: seq<Rule>, now: nat) returns (r: Result<Version, RepositoryError>)
      modifies repository, cache
      ensures r.Failure? <==> Get(old(repository.policies), policyId).None?
      ensures cache != null ==> State() == Step(old(State()), NewVersion(policyId, rules), now)
    {
      r := repository.CreateVersion(policyId, rules);
      if r.Success? {
        var policy := Get(repository.policies, policyId);
        if policy.Some? {
          InvalidateScope(policy.value.scopeType, policy.value.scopeId);
        }
      }
    }

    method ActivateVersion(policyId: string, n: int, now: nat) returns (r: Result<Policy, RepositoryError>)
      requires Valid(repository.Contents())
      modifies repository, cache
      ensures r == Activate(old(repository.Contents()), policyId, n)
      ensures cache != null ==> State() == Step(old(State()), Event.ActivateVersion(policyId, n), now)
    {
      GetStored(repository.Contents(), policyId);
      r := repository.ActivateVersion(policyId, n);
      if r.Success? {
        InvalidateScope(r.value.scopeType, r.value.scopeId);
      }
    }
  }
}
