/** What a hierarchy that was read from the repository names there, also after the repository has
    changed (packages/policy/src/policy-repository.ts). */
module PolicySnapshots {
  import opened Collections
  import opened Sorting
  import opened PolicyCompiler
  import opened PolicyRepository
  import opened PolicyEngine

  // ---------------------------------------------------------------- what no change takes away

  /** Every policy of `s` is in `t`, at the same scope and with all its versions. */
  ghost predicate Extends(t: Store, s: Store) {
    forall id :: Get(s.policies, id).Some? ==>
      && Get(t.policies, id).Some?
      && At(Get(t.policies, id).value, Get(s.policies, id).value.scopeType, Get(s.policies, id).value.scopeId)
      && VersionsFor(s, id) <= VersionsFor(t, id)
  }

  lemma VersionsAreKept(s: Store, e: Event, now: nat, id: string)
    requires Valid(s) && Changed(s, e, now).Some? && Get(s.policies, id).Some?
    ensures VersionsFor(s, id) <= VersionsFor(Changed(s, e, now).value.store, id)
  {
    hide Valid, Put, Get, NewId, Update, Activate, NextVersion;
    if e.Create? {
      GetStored(s, id);
      NewIdIsNew(s.idCounter, now);
    }
  }

  /** No lifecycle operation removes a policy, moves it to another scope, or takes back a version. */
  lemma ChangesExtend(s: Store, e: Event, now: nat)
    requires Valid(s) && Changed(s, e, now).Some?
    ensures Valid(Changed(s, e, now).value.store) && Extends(Changed(s, e, now).value.store, s)
  {
    hide Valid, Changed, Put, Get, VersionsFor;
    var t := Changed(s, e, now).value.store;
    var p := ChangeScoped(s, e, now);
    forall id | Get(s.policies, id).Some?
      ensures Get(t.policies, id).Some?
           && At(Get(t.policies, id).value, Get(s.policies, id).value.scopeType, Get(s.policies, id).value.scopeId)
           && VersionsFor(s, id) <= VersionsFor(t, id)
    {
      GetPut(s.policies, p.id, p, id);
      VersionsAreKept(s, e, now, id);
    }
  }

  lemma {:induction false} FoundVersionStays(vs: seq<Version>, ws: seq<Version>, n: int)
    requires vs <= ws && FindVersion(vs, n).Some?
    ensures FindVersion(ws, n) == FindVersion(vs, n)
  {
    if vs[0].version != n {
      FoundVersionStays(vs[1..], ws[1..], n);
    }
  }

  lemma {:induction false} FoundVersionHasNumber(vs: seq<Version>, n: int)
    requires FindVersion(vs, n).Some?
    ensures FindVersion(vs, n).value.version == n
  {
    if vs[0].version != n {
      FoundVersionHasNumber(vs[1..], n);
    }
  }

  // ---------------------------------------------------------------- snapshots

  /** The item names a stored policy of its scope, and a version of it with these rules. */
  ghost predicate Held(s: Store, item: HierarchyItem) {
    var p := Get(s.policies, item.policyId);
    var v := FindVersion(VersionsFor(s, item.policyId), item.version);
    p.Some? && At(p.value, item.scopeType, item.scopeId) && v.Some? && v.value.rules == item.rules
  }

  /** The scopes of the items only go inwards. */
  ghost predicate InOrder(h: seq<HierarchyItem>) {
    forall i, j :: 0 <= i < j < |h| ==> Precedence(h[i].scopeType) < Precedence(h[j].scopeType)
  }

  /** A hierarchy over the first `n` scopes, in their order, that was in effect item by item. */
  ghost predicate Snapshot(s: Store, h: seq<HierarchyItem>, n: nat) {
    InOrder(h) && forall i :: 0 <= i < |h| ==> Held(s, h[i]) && Precedence(h[i].scopeType) < n
  }

  lemma HeldStays(s: Store, t: Store, item: HierarchyItem)
    requires Extends(t, s) && Held(s, item)
    ensures Held(t, item)
  {
    hide FindVersion, Get, VersionsFor;
    assert Get(s.policies, item.policyId).Some?;
    FoundVersionStays(VersionsFor(s, item.policyId), VersionsFor(t, item.policyId), item.version);
  }

  /** A snapshot stays one through every change. */
  lemma SnapshotStays(s: Store, t: Store, h: seq<HierarchyItem>, n: nat)
    requires Extends(t, s) && Snapshot(s, h, n)
    ensures Snapshot(t, h, n)
  {
    hide Held, Extends;
    forall i | 0 <= i < |h| ensures Held(t, h[i]) {
      HeldStays(s, t, h[i]);
    }
  }

  /** What the active version of a stored policy adds. */
  lemma ActiveIsHeld(s: Store, p: Policy, scope: Scope, scopeId: Option<string>)
    requires Get(s.policies, p.id).Some? && At(Get(s.policies, p.id).value, scope, scopeId)
    requires ActiveVersion(s, p.id).Some?
    ensures var v := ActiveVersion(s, p.id).value;
            Held(s, HierarchyItem(scope, scopeId, p.id, v.version, v.rules))
  {
    hide FindVersion, Get, VersionsFor;
    FoundVersionHasNumber(VersionsFor(s, p.id), Get(s.policies, p.id).value.activeVersion);
  }

  lemma SnapshotGrows(s: Store, h: seq<HierarchyItem>, n: nat, items: seq<HierarchyItem>)
    requires Snapshot(s, h, n)
    requires items == [] || (|items| == 1 && Held(s, items[0]) && Precedence(items[0].scopeType) == n)
    ensures Snapshot(s, h + items, n + 1)
  {
    hide Held;
  }

  lemma ScopeItemIsHeld(s: Store, scope: Scope, scopeId: Option<string>)
    requires Valid(s)
    ensures var items := ScopeItem(s, scope, scopeId);
            items == [] || (|items| == 1 && Held(s, items[0]) && items[0].scopeType == scope)
  {
    hide Valid, PolicyByScope, ActiveVersion, Held, Get;
    ByScopeStored(s, scope, scopeId);
    var p := PolicyByScope(s.policies, scope, scopeId);
    if p.Some? && ActiveVersion(s, p.value.id).Some? {
      ActiveIsHeld(s, p.value, scope, scopeId);
    }
  }

  lemma StoredIsSnapshot(s: Store, q: Query)
    requires Valid(s)
    ensures Snapshot(s, StoredHierarchy(s, q), 4)
  {
    hide Valid, ScopeItem, Held, Snapshot;
    ScopeItemIsHeld(s, Global, None);
    ScopeItemIsHeld(s, Organization, Some(q.organizationId));
    ScopeItemIsHeld(s, Workspace, Some(q.workspaceId));
    ScopeItemIsHeld(s, ApiKey, q.apiKeyId);
    NothingHeld(s);
    var h0: seq<HierarchyItem> := [];
    var h1 := h0 + ScopeItem(s, Global, None);
    SnapshotGrows(s, h0, 0, ScopeItem(s, Global, None));
    assert h1 == ScopeItem(s, Global, None);
    var org := if q.organizationId != "" then ScopeItem(s, Organization, Some(q.organizationId)) else [];
    SnapshotGrows(s, h1, 1, org);
    var ws := if q.workspaceId != "" then ScopeItem(s, Workspace, Some(q.workspaceId)) else [];
    SnapshotGrows(s, h1 + org, 2, ws);
    var key := if Given(q.apiKeyId) then ScopeItem(s, ApiKey, q.apiKeyId) else [];
    SnapshotGrows(s, h1 + org + ws, 3, key);
  }

  lemma NothingHeld(s: Store)
    ensures Snapshot(s, [], 0)
  {
  }

  // ---------------------------------------------------------------- versions tell hierarchies apart

  lemma HeldDetermined(s: Store, a: HierarchyItem, b: HierarchyItem)
    requires Held(s, a) && Held(s, b) && a.policyId == b.policyId
    ensures a.scopeType == b.scopeType
    ensures a.version == b.version ==> a == b
  {
    hide FindVersion, Get, VersionsFor;
  }

  lemma OtherPolicies(s: Store, h: seq<HierarchyItem>, n: nat, i: nat)
    requires Snapshot(s, h, n) && i < |h| - 1
    ensures h[i].policyId != h[|h| - 1].policyId
  {
    hide Held;
    if h[i].policyId == h[|h| - 1].policyId {
      HeldDetermined(s, h[i], h[|h| - 1]);
    }
  }

  /** The recorded version of a policy is that of its item. */
  lemma {:induction false} VersionOfItem(s: Store, h: seq<HierarchyItem>, n: nat, i: nat)
    requires Snapshot(s, h, n) && i < |h|
    ensures h[i].policyId in VersionsOf(h) && VersionsOf(h)[h[i].policyId] == h[i].version
  {
    hide Held;
    if i < |h| - 1 {
      OtherPolicies(s, h, n, i);
      VersionOfItem(s, h[..|h| - 1], n, i);
    }
  }

  lemma {:induction false} ItemOfVersion(h: seq<HierarchyItem>, id: string) returns (i: nat)
    requires id in VersionsOf(h)
    ensures i < |h| && h[i].policyId == id
  {
    if h[|h| - 1].policyId == id {
      i := |h| - 1;
    } else {
      i := ItemOfVersion(h[..|h| - 1], id);
    }
  }

  lemma SameItem(s: Store, a: seq<HierarchyItem>, b: seq<HierarchyItem>, n: nat, i: nat)
    requires Snapshot(s, a, n) && Snapshot(s, b, n) && VersionsOf(a) == VersionsOf(b) && i < |a|
    ensures a[i] in b
  {
    hide Held, VersionsOf;
    VersionOfItem(s, a, n, i);
    var j := ItemOfVersion(b, a[i].policyId);
    VersionOfItem(s, b, n, j);
    HeldDetermined(s, a[i], b[j]);
  }

  lemma TailMembers(h: seq<HierarchyItem>, x: HierarchyItem)
    requires InOrder(h) && h != []
    ensures InOrder(h[1..]) && (x in h[1..] <==> x in h && x != h[0])
  {
    hide Precedence;
    assert h == [h[0]] + h[1..];
  }

  lemma SameFirst(a: seq<HierarchyItem>, b: seq<HierarchyItem>)
    requires InOrder(a) && InOrder(b) && a != [] && b != []
    requires a[0] in b && b[0] in a
    ensures a[0] == b[0]
  {
    hide Precedence;
  }

  lemma {:induction false} InOrderDetermined(a: seq<HierarchyItem>, b: seq<HierarchyItem>)
    requires InOrder(a) && InOrder(b)
    requires forall x :: x in a <==> x in b
    ensures a == b
  {
    hide InOrder;
    assert b == [] || b[0] in b;
    if a != [] {
      assert a[0] in b;
      SameFirst(a, b);
      TailMembers(a, a[0]);
      TailMembers(b, b[0]);
      forall x ensures x in a[1..] <==> x in b[1..] {
        TailMembers(a, x);
        TailMembers(b, x);
      }
      InOrderDetermined(a[1..], b[1..]);
      assert a == [a[0]] + a[1..] && b == [b[0]] + b[1..];
    }
  }

  /** Two snapshots with the same recorded versions are the same hierarchy. */
  lemma VersionsIdentify(s: Store, a: seq<HierarchyItem>, b: seq<HierarchyItem>, n: nat)
    requires Snapshot(s, a, n) && Snapshot(s, b, n)
    ensures VersionsOf(a) == VersionsOf(b) <==> a == b
  {
    hide Held, VersionsOf;
    if VersionsOf(a) == VersionsOf(b) {
      forall x ensures x in a <==> x in b {
        if x in a {
          var i :| 0 <= i < |a| && a[i] == x;
          SameItem(s, a, b, n, i);
        }
        if x in b {
          var i :| 0 <= i < |b| && b[i] == x;
          SameItem(s, b, a, n, i);
        }
      }
      InOrderDetermined(a, b);
    }
  }

  /** Snapshots compile to the same policy exactly if they name the same versions of the same
      policies. */
  lemma CompiledIdentifies(s: Store, a: seq<HierarchyItem>, b: seq<HierarchyItem>)
    requires Snapshot(s, a, 4) && Snapshot(s, b, 4)
    ensures Compile(a, None) == Compile(b, None) <==> a == b
  {
    hide Held, VersionsOf, Sort;
    SortOfSorted(Before, a);
    SortOfSorted(Before, b);
    VersionsIdentify(s, a, b, 4);
  }
}
