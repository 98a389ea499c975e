/** Policies and their versions, kept in memory (packages/policy/src/policy-repository.ts). */
module PolicyRepository {
  import opened Collections
  import opened Digits
  import opened PolicyCompiler

  datatype Status = Draft | Active | Disabled | Archived

  datatype Policy = Policy(
    id: string, scopeType: Scope, scopeId: Option<string>, name: string, status: Status, activeVersion: int)

  datatype Version = Version(policyId: string, version: int, rules: seq<Rule>)

  datatype CreatePolicyInput = CreatePolicyInput(
    scopeType: Scope, scopeId: Option<string>, name: string, status: Option<Status>, rules: Option<seq<Rule>>)

  datatype UpdatePolicyInput = UpdatePolicyInput(
    name: Option<string>, status: Option<Status>, expectedVersion: Option<int>)

  /** The contents of a repository. Policies are looked up in the order they were first stored. */
  datatype Store = Store(policies: Entries<string, Policy>, versions: map<string, seq<Version>>, idCounter: nat)

  const BASELINE := "pol_global_baseline"

  function Seeded(): Store {
    Store([(BASELINE, Policy(BASELINE, Global, None, "Global Platform Baseline Policy", Active, 1))],
          map[BASELINE := [Version(BASELINE, 1, [])]], 1)
  }

  function NewId(counter: nat, now: nat): string {
    "pol_" + PrintNat(counter) + "_" + PrintNat(now)
  }

  /** Ids are the baseline's or were made from an earlier counter, and no policy is stored under
      the id of another. */
  ghost predicate Valid(s: Store) {
    && Distinct(s.policies)
    && (forall i :: 0 <= i < |s.policies| ==> s.policies[i].1.id == s.policies[i].0)
    && (forall i :: 0 <= i < |s.policies| ==> Known(s.policies[i].0, s.idCounter))
  }

  ghost predicate Known(id: string, counter: nat) {
    id == BASELINE || exists c: nat, now: nat :: c < counter && id == NewId(c, now)
  }

  lemma NewIdIsNew(counter: nat, now: nat)
    ensures !Known(NewId(counter, now), counter)
  {
    var id := NewId(counter, now);
    assert id[4] == PrintNat(counter)[0] && IsDigit(id[4]);
    assert BASELINE[4] == 'g';
    forall c: nat, t: nat | c < counter ensures id != NewId(c, t) {
      if id == NewId(c, t) {
        var r, s := "_" + PrintNat(now), "_" + PrintNat(t);
        assert id[4..] == PrintNat(counter) + r && NewId(c, t)[4..] == PrintNat(c) + s;
        DigitsEnd(PrintNat(counter), PrintNat(c), r, s);
        ParsePrint(counter);
        ParsePrint(c);
      }
    }
  }

  // ---------------------------------------------------------------- lookups

  predicate At(p: Policy, scope: Scope, scopeId: Option<string>) {
    p.scopeType == scope && p.scopeId == scopeId
  }

  /** The first policy of a scope that is not archived. */
  function PolicyByScope(ps: Entries<string, Policy>, scope: Scope, scopeId: Option<string>): (r: Option<Policy>)
    ensures r.Some? ==> At(r.value, scope, scopeId) && exists i :: 0 <= i < |ps| && ps[i].1 == r.value
  {
    if ps == [] then None
    else if At(ps[0].1, scope, scopeId) && !ps[0].1.status.Archived? then Some(ps[0].1)
    else PolicyByScope(ps[1..], scope, scopeId)
  }

  function FindVersion(vs: seq<Version>, n: int): Option<Version> {
    if vs == [] then None
    else if vs[0].version == n then Some(vs[0])
    else FindVersion(vs[1..], n)
  }

  function VersionsFor(s: Store, id: string): seq<Version> {
    if id in s.versions then s.versions[id] else []
  }

  function ActiveVersion(s: Store, id: string): Option<Version> {
    match Get(s.policies, id)
    case None => None
    case Some(p) =>
      if p.status.Disabled? || p.status.Archived? then None else FindVersion(VersionsFor(s, id), p.activeVersion)
  }

  // ---------------------------------------------------------------- changes

  function HighestVersion(vs: seq<Version>): (n: int)
    requires vs != []
    ensures forall v :: v in vs ==> v.version <= n
    ensures exists v :: v in vs && v.version == n
  {
    if |vs| == 1 then vs[0].version
    else
      var m := HighestVersion(vs[..|vs| - 1]);
      assert vs == vs[..|vs| - 1] + [vs[|vs| - 1]];
      assert vs[|vs| - 1] in vs;
      if vs[|vs| - 1].version > m then vs[|vs| - 1].version else m
  }

  function NextVersion(vs: seq<Version>): int {
    if vs == [] then 1 else HighestVersion(vs) + 1
  }

  function WithVersion(s: Store, id: string, rules: seq<Rule>): Store {
    var vs := VersionsFor(s, id);
    s.(versions := s.versions[id := vs + [Version(id, NextVersion(vs), rules)]])
  }

  function WithPolicy(s: Store, p: Policy): Store {
    s.(policies := Put(s.policies, p.id, p))
  }

  /** A second policy for a scope becomes a new active version of the first. */
  function Created(s: Store, input: CreatePolicyInput, now: nat): Store {
    var rules := input.rules.GetOr([]);
    match PolicyByScope(s.policies, input.scopeType, input.scopeId)
    case Some(p) =>
      WithPolicy(WithVersion(s, p.id, rules),
                 p.(name := input.name, status := input.status.GetOr(Active),
                    activeVersion := NextVersion(VersionsFor(s, p.id))))
    case None =>
      var id := NewId(s.idCounter, now);
      var p := Policy(id, input.scopeType, input.scopeId, input.name, input.status.GetOr(Active), 1);
      Store(Put(s.policies, id, p), s.versions[id := [Version(id, 1, rules)]], s.idCounter + 1)
  }

  datatype RepositoryError = PolicyNotFound | VersionConflict | VersionNotFound

  /** The policy as it will be stored, or the error that is thrown. */
  function Update(s: Store, id: string, input: UpdatePolicyInput): Result<Policy, RepositoryError> {
    match Get(s.policies, id)
    case None => Failure(PolicyNotFound)
    case Some(p) =>
      if input.expectedVersion.Some? && p.activeVersion != input.expectedVersion.value then Failure(VersionConflict)
      else Success(p.(name := input.name.GetOr(p.name), status := input.status.GetOr(p.status)))
  }

  function Activate(s: Store, id: string, n: int): Result<Policy, RepositoryError> {
    match Get(s.policies, id)
    case None => Failure(PolicyNotFound)
    case Some(p) =>
      if FindVersion(VersionsFor(s, id), n).None? then Failure(VersionNotFound)
      else Success(p.(activeVersion := n, status := Active))
  }

  // ---------------------------------------------------------------- frames

  lemma ByScopeStored(s: Store, scope: Scope, scopeId: Option<string>)
    requires Valid(s)
    ensures var r := PolicyByScope(s.policies, scope, scopeId);
            r.Some? ==> Get(s.policies, r.value.id) == Some(r.value)
  {
    var r := PolicyByScope(s.policies, scope, scopeId);
    if r.Some? {
      var i :| 0 <= i < |s.policies| && s.policies[i].1 == r.value;
      GetAt(s.policies, i);
    }
  }

  lemma GetStored(s: Store, id: string)
    requires Valid(s)
    ensures var r := Get(s.policies, id); r.Some? ==> r.value.id == id && Known(id, s.idCounter)
  {
    var r := Get(s.policies, id);
    if r.Some? {
      var i :| 0 <= i < |s.policies| && s.policies[i] == (id, r.value);
    }
  }

  lemma NoPolicies(scope: Scope, scopeId: Option<string>)
    ensures PolicyByScope([], scope, scopeId) == None
  {
  }

  lemma ByScopeHead(ps: Entries<string, Policy>, scope: Scope, scopeId: Option<string>)
    requires ps != []
    ensures PolicyByScope(ps, scope, scopeId)
         == if At(ps[0].1, scope, scopeId) && !ps[0].1.status.Archived? then Some(ps[0].1)
            else PolicyByScope(ps[1..], scope, scopeId)
  {
  }

  /** Storing a policy changes the lookups of its own scope only. */
  lemma {:induction false} PutKeepsOtherScopes(
    ps: Entries<string, Policy>, p: Policy, scope: Scope, scopeId: Option<string>)
    requires !At(p, scope, scopeId)
    requires Get(ps, p.id).Some? ==> !At(Get(ps, p.id).value, scope, scopeId)
    ensures PolicyByScope(Put(ps, p.id, p), scope, scopeId) == PolicyByScope(ps, scope, scopeId)
  {
    if ps == [] {
      assert Put(ps, p.id, p)[1..] == [];
    } else {
      PutHead(ps, p.id, p);
      assert Get(ps, p.id) == if ps[0].0 == p.id then Some(ps[0].1) else Get(ps[1..], p.id);
      hide Put, Get;
      ByScopeHead(ps, scope, scopeId);
      ByScopeHead(Put(ps, p.id, p), scope, scopeId);
      hide PolicyByScope;
      if ps[0].0 != p.id {
        PutKeepsOtherScopes(ps[1..], p, scope, scopeId);
      }
    }
  }

  /** `t` is `s` with policy `p`, old or new, and its versions replaced. */
  ghost predicate ChangesOnly(s: Store, t: Store, p: Policy) {
    && t.policies == Put(s.policies, p.id, p)
    && (Get(s.policies, p.id).Some? ==>
          At(Get(s.policies, p.id).value, p.scopeType, p.scopeId))
    && (forall id :: id != p.id ==> VersionsFor(t, id) == VersionsFor(s, id))
  }

  /** What a lookup by scope yields: the active policy with its active version. */
  function InEffect(s: Store, scope: Scope, scopeId: Option<string>): Option<(Policy, Version)> {
    match PolicyByScope(s.policies, scope, scopeId)
    case None => None
    case Some(p) =>
      if !p.status.Active? then None
      else
        match ActiveVersion(s, p.id)
        case None => None
        case Some(v) => Some((p, v))
  }

  lemma OtherActiveVersion(s: Store, t: Store, p: Policy, id: string)
    requires ChangesOnly(s, t, p) && id != p.id
    ensures ActiveVersion(t, id) == ActiveVersion(s, id)
  {
    hide Put, Get, FindVersion;
    GetPut(s.policies, p.id, p, id);
  }

  lemma OtherPolicyByScope(s: Store, t: Store, p: Policy, scope: Scope, scopeId: Option<string>)
    requires Valid(s) && ChangesOnly(s, t, p) && !At(p, scope, scopeId)
    ensures var r := PolicyByScope(s.policies, scope, scopeId);
            PolicyByScope(t.policies, scope, scopeId) == r && (r.Some? ==> r.value.id != p.id)
  {
    hide Put, PolicyByScope, Valid, Get;
    PutKeepsOtherScopes(s.policies, p, scope, scopeId);
    ByScopeStored(s, scope, scopeId);
  }

  /** A change to one policy leaves what is in effect at every other scope as it was. */
  lemma ChangeIsScoped(s: Store, t: Store, p: Policy, scope: Scope, scopeId: Option<string>)
    requires Valid(s) && ChangesOnly(s, t, p) && !At(p, scope, scopeId)
    ensures InEffect(t, scope, scopeId) == InEffect(s, scope, scopeId)
  {
    hide PolicyByScope, Valid, ActiveVersion, ChangesOnly;
    OtherPolicyByScope(s, t, p, scope, scopeId);
    var r := PolicyByScope(s.policies, scope, scopeId);
    if r.Some? {
      OtherActiveVersion(s, t, p, r.value.id);
    }
  }

  lemma KnownLater(id: string, counter: nat, later: nat)
    requires Known(id, counter) && counter <= later
    ensures Known(id, later)
  {
    hide NewId;
  }

  lemma OtherEntry(ps: Entries<string, Policy>, k: string, p: Policy, i: nat)
    requires Distinct(ps) && i < |Put(ps, k, p)| && Put(ps, k, p)[i].0 != k
    ensures i < |ps| && Put(ps, k, p)[i] == ps[i]
  {
    PutOthers(ps, k, p);
    hide Put;
  }

  lemma PutValid(s: Store, p: Policy, t: Store)
    requires Valid(s) && t.policies == Put(s.policies, p.id, p)
    requires s.idCounter <= t.idCounter
    requires Known(p.id, t.idCounter)
    ensures Valid(t)
  {
    hide NewId, Put, Get, Known;
    PutDistinct(s.policies, p.id, p);
    GetPut(s.policies, p.id, p, p.id);
    forall i | 0 <= i < |t.policies|
      ensures t.policies[i].1.id == t.policies[i].0 && Known(t.policies[i].0, t.idCounter)
    {
      if t.policies[i].0 == p.id {
        GetAt(t.policies, i);
      } else {
        OtherEntry(s.policies, p.id, p, i);
        KnownLater(t.policies[i].0, s.idCounter, t.idCounter);
      }
    }
  }

  lemma CreatedIsScoped(s: Store, input: CreatePolicyInput, now: nat)
    requires Valid(s)
    ensures Valid(Created(s, input, now))
    ensures exists p :: At(p, input.scopeType, input.scopeId) && ChangesOnly(s, Created(s, input, now), p)
  {
    hide NewId;
    var t := Created(s, input, now);
    var found := PolicyByScope(s.policies, input.scopeType, input.scopeId);
    match found
    case Some(q) =>
      ByScopeStored(s, input.scopeType, input.scopeId);
      GetStored(s, q.id);
      var p := q.(name := input.name, status := input.status.GetOr(Active),
                  activeVersion := NextVersion(VersionsFor(s, q.id)));
      PutValid(s, p, t);
      assert ChangesOnly(s, t, p);
    case None =>
      var id := NewId(s.idCounter, now);
      NewIdIsNew(s.idCounter, now);
      GetStored(s, id);
      var p := Policy(id, input.scopeType, input.scopeId, input.name, input.status.GetOr(Active), 1);
      PutValid(s, p, t);
      assert ChangesOnly(s, t, p);
  }

  lemma StoredIsScoped(s: Store, p: Policy)
    requires Valid(s) && Get(s.policies, p.id).Some?
    requires At(Get(s.policies, p.id).value, p.scopeType, p.scopeId)
    ensures Valid(WithPolicy(s, p)) && ChangesOnly(s, WithPolicy(s, p), p)
  {
    GetStored(s, p.id);
    PutValid(s, p, WithPolicy(s, p));
  }

  lemma VersionIsScoped(s: Store, p: Policy, rules: seq<Rule>)
    requires Valid(s) && Get(s.policies, p.id) == Some(p)
    ensures Valid(WithVersion(s, p.id, rules)) && ChangesOnly(s, WithVersion(s, p.id, rules), p)
  {
    hide Put, Get, NewId, Known;
    PutSame(s.policies, p.id, p);
  }

  // ---------------------------------------------------------------- the repository object

  class InMemoryPolicyRepository {
    var policies: Entries<string, Policy>
    var versions: map<string, seq<Version>>
    var idCounter: nat

    function Contents(): Store
      reads this
    {
      Store(policies, versions, idCounter)
    }

    constructor ()
      ensures Contents() == Seeded()
    {
      policies := [(BASELINE, Policy(BASELINE, Global, None, "Global Platform Baseline Policy", Active, 1))];
      versions := map[BASELINE := [Version(BASELINE, 1, [])]];
      idCounter := 1;
    }

    method GetPolicyByScope(scope: Scope, scopeId: Option<string>) returns (r: Option<Policy>)
      ensures r == PolicyByScope(policies, scope, scopeId)
    {
      var i := 0;
      assert policies[0..] == policies;
      NoPolicies(scope, scopeId);
      hide PolicyByScope;
      while i < |policies|
        invariant 0 <= i <= |policies|
        invariant PolicyByScope(policies, scope, scopeId) == PolicyByScope(policies[i..], scope, scopeId)
      {
        var p := policies[i].1;
        ByScopeHead(policies[i..], scope, scopeId);
        assert policies[i..][1..] == policies[i + 1..];
        if p.scopeType == scope && p.scopeId == scopeId && !p.status.Archived? {
          return Some(p);
        }
        i := i + 1;
      }
      assert policies[|policies|..] == [];
      return None;
    }

    method GetActiveVersion(policyId: string) returns (r: Option<Version>)
      ensures r == ActiveVersion(Contents(), policyId)
    {
      var policy := Get(policies, policyId);
      if policy.None? || policy.value.status.Disabled? || policy.value.status.Archived? {
        return None;
      }
      var vers := if policyId in versions then versions[policyId] else [];
      return FindVersion(vers, policy.value.activeVersion);
    }

    method CreatePolicy(input: CreatePolicyInput, now: nat) returns (policy: Policy, version: Version)
      modifies this
      ensures Contents() == Created(old(Contents()), input, now)
      ensures At(policy, input.scopeType, input.scopeId) && version.rules == input.rules.GetOr([])
      ensures policy.id == version.policyId && policy.activeVersion == version.version
    {
      var existing := GetPolicyByScope(input.scopeType, input.scopeId);
      if existing.Some? {
        var p := existing.value;
        var vers := if p.id in versions then versions[p.id] else [];
        var next := NextVersion(vers);
        version := Version(p.id, next, input.rules.GetOr([]));
        versions := versions[p.id := vers + [version]];
        policy := p.(name := input.name, activeVersion := next, status := input.status.GetOr(Active));
        policies := Put(policies, p.id, policy);
        return;
      }
      var id := NewId(idCounter, now);
      idCounter := idCounter + 1;
      policy := Policy(id, input.scopeType, input.scopeId, input.name, input.status.GetOr(Active), 1);
      version := Version(id, 1, input.rules.GetOr([]));
      policies := Put(policies, id, policy);
      versions := versions[id := [version]];
    }

    method UpdatePolicy(id: string, input: UpdatePolicyInput) returns (r: Result<Policy, RepositoryError>)
      modifies this`policies
      ensures r == Update(old(Contents()), id, input)
      ensures r.Success? ==> policies == Put(old(policies), id, r.value)
      ensures r.Failure? ==> policies == old(policies)
    {
      var existing := Get(policies, id);
      if existing.None? {
        return Failure(PolicyNotFound);
      }
      var p := existing.value;
      if input.expectedVersion.Some? && p.activeVersion != input.expectedVersion.value {
        return Failure(VersionConflict);
      }
      var updated := p.(name := input.name.GetOr(p.name), status := input.status.GetOr(p.status));
      policies := Put(policies, id, updated);
      return Success(updated);
    }

    method CreateVersion(policyId: string, rules: seq<Rule>) returns (r: Result<Version, RepositoryError>)
      modifies this`versions
      ensures r.Failure? <==> Get(policies, policyId).None?
      ensures r.Failure? ==> versions == old(versions) && r.error == PolicyNotFound
      ensures r.Success? ==>
                && Contents() == WithVersion(old(Contents()), policyId, rules)
                && r.value == Version(policyId, NextVersion(VersionsFor(old(Contents()), policyId)), rules)
    {
      if Get(policies, policyId).None? {
        return Failure(PolicyNotFound);
      }
      var vers := if policyId in versions then versions[policyId] else [];
      var version := Version(policyId, NextVersion(vers), rules);
      versions := versions[policyId := vers + [version]];
      return Success(version);
    }

    method ActivateVersion(policyId: string, n: int) returns (r: Result<Policy, RepositoryError>)
      modifies this`policies
      ensures r == Activate(old(Contents()), policyId, n)
      ensures r.Success? ==> policies == Put(old(policies), policyId, r.value)
      ensures r.Failure? ==> policies == old(policies)
    {
      var policy := Get(policies, policyId);
      if policy.None? {
        return Failure(PolicyNotFound);
      }
      var vers := if policyId in versions then versions[policyId] else [];
      if FindVersion(vers, n).None? {
        return Failure(VersionNotFound);
      }
      var updated := policy.value.(activeVersion := n, status := Active);
      policies := Put(policies, policyId, updated);
      return Success(updated);
    }
  }
}
