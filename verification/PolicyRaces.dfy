/** The policy engine's operations as they overlap (packages/policy/src/policy-engine.ts): a lookup awaits
    each read of the repository before it writes the cache, and a lifecycle operation awaits the
    repository before it invalidates. */
module PolicyRaces {
  import opened Collections
  import opened Sorting
  import opened Text
  import opened PolicyCompiler
  import opened PolicyRepository
  import opened PolicyCache
  import opened PolicyEngine
  import opened PolicySnapshots

  // ---------------------------------------------------------------- a lookup in progress

  const SCOPES: seq<Scope> := [Global, Organization, Workspace, ApiKey]

  predicate Reads(q: Query, scope: Scope) {
    match scope
    case Global => true
    case Organization => q.organizationId != ""
    case Workspace => q.workspaceId != ""
    case ApiKey => Given(q.apiKeyId)
  }

  function IdAt(q: Query, scope: Scope): Option<string> {
    match scope
    case Global => None
    case Organization => Some(q.organizationId)
    case Workspace => Some(q.workspaceId)
    case ApiKey => q.apiKeyId
  }

  /** A lookup that the cache did not answer: how many scopes it is done with, the policy of the next
      one if it awaits its version, and what it has read. */
  datatype Flight = Flight(query: Query, done: nat, policy: Option<Policy>, read: seq<HierarchyItem>)

  /** From one await of a lookup to the next. */
  function Advanced(s: Store, f: Flight): Flight
    requires f.done < 4
  {
    var scope := SCOPES[f.done];
    var id := IdAt(f.query, scope);
    match f.policy
    case Some(p) =>
      var v := ActiveVersion(s, p.id);
      Flight(f.query, f.done + 1, None,
             f.read + if v.Some? then [HierarchyItem(scope, id, p.id, v.value.version, v.value.rules)] else [])
    case None =>
      if !Reads(f.query, scope) then f.(done := f.done + 1)
      else
        var p := PolicyByScope(s.policies, scope, id);
        if p.Some? && p.value.status.Active? then f.(policy := p) else f.(done := f.done + 1)
  }

  /** What a lookup finds at its first `n` scopes. */
  function ReadUpTo(s: Store, q: Query, n: nat): seq<HierarchyItem>
    requires n <= 4
  {
    if n == 0 then []
    else
      ReadUpTo(s, q, n - 1)
      + if Reads(q, SCOPES[n - 1]) then ScopeItem(s, SCOPES[n - 1], IdAt(q, SCOPES[n - 1])) else []
  }

  /** What the lookup has read is what the repository holds now. */
  ghost predicate Current(s: Store, f: Flight) {
    && f.done <= 4
    && f.read == ReadUpTo(s, f.query, f.done)
    && (f.policy.Some? ==>
          && f.done < 4
          && Reads(f.query, SCOPES[f.done])
          && PolicyByScope(s.policies, SCOPES[f.done], IdAt(f.query, SCOPES[f.done])) == f.policy
          && f.policy.value.status.Active?)
  }

  /** The lookup has begun to read the policy of a scope. */
  predicate Begun(f: Flight, scope: Scope, scopeId: Option<string>) {
    DrawsOn(f.query, scope, scopeId)
    && (Precedence(scope) < f.done || (Precedence(scope) == f.done && f.policy.Some?))
  }

  lemma ReadsAll(s: Store, q: Query)
    ensures ReadUpTo(s, q, 4) == StoredHierarchy(s, q)
  {
    hide ScopeItem;
    assert ReadUpTo(s, q, 1) == ScopeItem(s, Global, None);
    assert ReadUpTo(s, q, 2) == ReadUpTo(s, q, 1)
      + if q.organizationId != "" then ScopeItem(s, Organization, Some(q.organizationId)) else [];
    assert ReadUpTo(s, q, 3) == ReadUpTo(s, q, 2)
      + if q.workspaceId != "" then ScopeItem(s, Workspace, Some(q.workspaceId)) else [];
  }

  lemma AdvancedIsCurrent(s: Store, f: Flight)
    requires f.done < 4 && Current(s, f)
    ensures Current(s, Advanced(s, f))
  {
    hide ActiveVersion, PolicyByScope;
    assert f.read + [] == f.read;
  }

  lemma {:induction false} UnchangedReads(s: Store, t: Store, p: Policy, f: Flight, n: nat)
    requires Valid(s) && ChangesOnly(s, t, p) && n <= f.done <= 4 && !Begun(f, p.scopeType, p.scopeId)
    ensures ReadUpTo(t, f.query, n) == ReadUpTo(s, f.query, n)
  {
    hide Valid, ChangesOnly, InEffect;
    if n > 0 {
      UnchangedReads(s, t, p, f, n - 1);
      var scope := SCOPES[n - 1];
      assert Precedence(scope) == n - 1;
      if Reads(f.query, scope) {
        ChangeIsScoped(s, t, p, scope, IdAt(f.query, scope));
      }
    }
  }

  /** A change to a policy that a lookup has not begun to read leaves what it has read current. */
  lemma ChangeIsCurrent(s: Store, t: Store, p: Policy, f: Flight)
    requires Valid(s) && ChangesOnly(s, t, p) && Current(s, f) && !Begun(f, p.scopeType, p.scopeId)
    ensures Current(t, f)
  {
    hide Valid, ChangesOnly, ReadUpTo, PolicyByScope;
    UnchangedReads(s, t, p, f, f.done);
    if f.policy.Some? {
      var scope := SCOPES[f.done];
      assert Precedence(scope) == f.done;
      OtherPolicyByScope(s, t, p, scope, IdAt(f.query, scope));
    }
  }

  // ---------------------------------------------------------------- overlapping operations

  /** Repository and cache, lookups in progress, and invalidations still to come. */
  datatype Shared = Shared(sys: System, flights: seq<Flight>, pending: seq<(Scope, Option<string>)>)

  datatype Move =
    | Look(query: Query)
    | Read(i: nat)
    | Keep(i: nat)
    | Mutate(event: Event)
    | Invalidate(i: nat)

  function Dropped<T>(s: seq<T>, i: nat): seq<T>
    requires i < |s|
  {
    s[..i] + s[i + 1..]
  }

  /** What a lookup that has read everything writes to the cache. */
  function Kept(sys: System, f: Flight, now: nat): System {
    var key := CacheKey(f.query);
    var policy := Compile(f.read + KeyItem(f.query), f.query.requestConstraints);
    sys.(cache := sys.cache[key := EntryFor(key, policy, now + sys.ttl)])
  }

  /** An entry that has expired is dropped when it is asked for. */
  function Missed(sys: System, q: Query): System {
    if q.skipCache then sys else sys.(cache := sys.cache - {CacheKey(q)})
  }

  function Next(w: Shared, m: Move, now: nat): Shared {
    match m
    case Look(q) =>
      if Hit(w.sys, q, now).Some? then w
      else w.(sys := Missed(w.sys, q), flights := w.flights + [Flight(q, 0, None, [])])
    case Read(i) =>
      if i < |w.flights| && w.flights[i].done < 4 then
        w.(flights := w.flights[i := Advanced(w.sys.store, w.flights[i])])
      else w
    case Keep(i) =>
      if i < |w.flights| && w.flights[i].done == 4 then
        w.(sys := Kept(w.sys, w.flights[i], now), flights := Dropped(w.flights, i))
      else w
    case Mutate(e) =>
      var c := Changed(w.sys.store, e, now);
      if c.None? then w
      else w.(sys := w.sys.(store := c.value.store), pending := w.pending + [(c.value.scope, c.value.scopeId)])
    case Invalidate(i) =>
      if i < |w.pending| then
        w.(sys := w.sys.(cache := Invalidated(w.sys.cache, w.pending[i].0, w.pending[i].1)),
           pending := Dropped(w.pending, i))
      else w
  }

  function Schedule(w: Shared, moves: seq<(Move, nat)>): Shared {
    if moves == [] then w
    else
      var (m, now) := moves[|moves| - 1];
      Next(Schedule(w, moves[..|moves| - 1]), m, now)
  }

  function Start(ttl: nat): Shared {
    Shared(Initial(ttl), [], [])
  }

  // ---------------------------------------------------------------- without overlap of reads and changes

  /** Lookups bring nothing of their own, and no policy changes that a lookup in progress has begun to
      read. */
  ghost predicate Orderly(w: Shared, m: Move, now: nat) {
    match m
    case Look(q) => Hit(w.sys, q, now).Some? || (Keyable(q) && Plain(q))
    case Mutate(e) =>
      var c := Changed(w.sys.store, e, now);
      c.Some? ==> forall i :: 0 <= i < |w.flights| ==> !Begun(w.flights[i], c.value.scope, c.value.scopeId)
    case _ => true
  }

  ghost predicate OrderlySchedule(w: Shared, moves: seq<(Move, nat)>) {
    moves == [] ||
    (OrderlySchedule(w, moves[..|moves| - 1])
     && Orderly(Schedule(w, moves[..|moves| - 1]), moves[|moves| - 1].0, moves[|moves| - 1].1))
  }

  /** An invalidation is to come that concerns the tenant. */
  ghost predicate Doomed(w: Shared, q: Query) {
    exists i :: 0 <= i < |w.pending| && DrawsOn(q, w.pending[i].0, w.pending[i].1)
  }

  /** The entry of a tenant is filed under its scopes, and is a fresh compile unless it is about to be
      invalidated. */
  ghost predicate Settled(w: Shared, q: Query) {
    CacheKey(q) in w.sys.cache ==>
      var e := w.sys.cache[CacheKey(q)];
      && e.organizationId == q.organizationId
      && e.workspaceId == q.workspaceId
      && e.apiKeyId == (if Given(q.apiKeyId) then q.apiKeyId else None)
      && (e.policy == FreshStored(w.sys.store, q) || Doomed(w, q))
  }

  ghost predicate Sound(w: Shared) {
    && Valid(w.sys.store)
    && (forall i :: 0 <= i < |w.flights| ==>
          Current(w.sys.store, w.flights[i]) && Keyable(w.flights[i].query) && Plain(w.flights[i].query))
    && (forall q :: Keyable(q) ==> Settled(w, q))
  }

  /** What a lookup writes that has read only what is current. */
  lemma KeptIsFresh(s: Store, f: Flight)
    requires Current(s, f) && f.done == 4 && Plain(f.query)
    ensures Compile(f.read + KeyItem(f.query), f.query.requestConstraints) == FreshStored(s, f.query)
  {
    hide Compile, StoredHierarchy, KeyItem, RequestRules, ReadUpTo;
    ReadsAll(s, f.query);
    PlainIsStored(s, f.query);
  }

  lemma KeepIsSound(w: Shared, i: nat, now: nat)
    requires Sound(w) && i < |w.flights| && w.flights[i].done == 4
    ensures Sound(Next(w, Keep(i), now))
  {
    hide Compile, StoredHierarchy, KeyItem, CacheKey, FreshStored, Plain, Current, Valid, Keyable;
    var f := w.flights[i];
    var n := Next(w, Keep(i), now);
    KeptIsFresh(w.sys.store, f);
    KeptEntry(w.sys, f, now);
    forall b | Keyable(b) ensures Settled(n, b) {
      assert Settled(w, b);
      KeysIdentifyTenants(f.query, b);
      if SameTenant(f.query, b) {
        TenantsShare(w.sys.store, f.query, b);
      }
    }
  }

  lemma KeptEntry(sys: System, f: Flight, now: nat)
    requires Keyable(f.query)
    ensures var q := f.query;
            && CacheKey(q) in Kept(sys, f, now).cache
            && var e := Kept(sys, f, now).cache[CacheKey(q)];
            && e.policy == Compile(f.read + KeyItem(q), q.requestConstraints)
            && e.organizationId == q.organizationId && e.workspaceId == q.workspaceId
            && e.apiKeyId == (if Given(q.apiKeyId) then q.apiKeyId else None)
  {
    hide Compile, KeyItem, CacheKey, Split;
    KeyParts(f.query);
  }

  lemma MutateIsSound(w: Shared, e: Event, now: nat)
    requires Sound(w) && Orderly(w, Mutate(e), now)
    ensures Sound(Next(w, Mutate(e), now))
  {
    hide Compile, StoredHierarchy, CacheKey, Plain, Current, Valid, Keyable, ChangesOnly, Changed, Begun;
    var change := Changed(w.sys.store, e, now);
    if change.Some? {
      var c := change.value;
      var n := Next(w, Mutate(e), now);
      var p := ChangeScoped(w.sys.store, e, now);
      forall i | 0 <= i < |w.flights| ensures Current(c.store, w.flights[i]) {
        ChangeIsCurrent(w.sys.store, c.store, p, w.flights[i]);
      }
      forall q | Keyable(q) ensures Settled(n, q) {
        assert Settled(w, q);
        if DrawsOn(q, c.scope, c.scopeId) {
          assert n.pending[|w.pending|] == (c.scope, c.scopeId);
        } else {
          HierarchyFrame(w.sys.store, c.store, p, q);
          StillDoomed(w, n, q);
        }
      }
    }
  }

  lemma StillDoomed(w: Shared, n: Shared, q: Query)
    requires |w.pending| <= |n.pending| && n.pending[..|w.pending|] == w.pending
    ensures Doomed(w, q) ==> Doomed(n, q)
  {
    if i :| 0 <= i < |w.pending| && DrawsOn(q, w.pending[i].0, w.pending[i].1) {
      assert n.pending[i] == n.pending[..|w.pending|][i];
    }
  }

  lemma InvalidateIsSound(w: Shared, i: nat, now: nat)
    requires Sound(w) && i < |w.pending|
    ensures Sound(Next(w, Invalidate(i), now))
  {
    hide Compile, StoredHierarchy, CacheKey, Plain, Current, Valid, FreshStored;
    var n := Next(w, Invalidate(i), now);
    forall q | Keyable(q) ensures Settled(n, q) {
      assert Settled(w, q);
      if CacheKey(q) in n.sys.cache {
        assert !DrawsOn(q, w.pending[i].0, w.pending[i].1);
        if j :| 0 <= j < |w.pending| && DrawsOn(q, w.pending[j].0, w.pending[j].1) {
          assert n.pending[if j < i then j else j - 1] == w.pending[j];
        }
      }
    }
  }

  lemma NextIsSound(w: Shared, m: Move, now: nat)
    requires Sound(w) && Orderly(w, m, now)
    ensures Sound(Next(w, m, now))
  {
    hide Compile, CacheKey, Plain, Current, Valid, Keyable, Changed, Kept, Advanced, Settled;
    match m
    case Look(q) =>
      NothingRead(w.sys.store, q);
      forall b | Keyable(b) ensures Settled(Next(w, m, now), b) {
        FewerEntries(w, Next(w, m, now), b);
      }
    case Read(i) =>
      if i < |w.flights| && w.flights[i].done < 4 {
        AdvancedIsCurrent(w.sys.store, w.flights[i]);
        SameQuery(w.sys.store, w.flights[i]);
      }
      forall b | Keyable(b) ensures Settled(Next(w, m, now), b) {
        FewerEntries(w, Next(w, m, now), b);
      }
    case Keep(i) =>
      if i < |w.flights| && w.flights[i].done == 4 {
        KeepIsSound(w, i, now);
      }
    case Mutate(e) => MutateIsSound(w, e, now);
    case Invalidate(i) =>
      if i < |w.pending| {
        InvalidateIsSound(w, i, now);
      }
  }

  lemma NothingRead(s: Store, q: Query)
    ensures Current(s, Flight(q, 0, None, []))
  {
  }

  lemma SameQuery(s: Store, f: Flight)
    requires f.done < 4
    ensures Advanced(s, f).query == f.query
  {
  }

  lemma FewerEntries(w: Shared, n: Shared, q: Query)
    requires n.sys.store == w.sys.store && n.pending == w.pending && Settled(w, q)
    requires forall k :: k in n.sys.cache ==> k in w.sys.cache && n.sys.cache[k] == w.sys.cache[k]
    ensures Settled(n, q)
  {
    hide CacheKey, FreshStored, DrawsOn;
  }

  /** Over every interleaving of lookups and lifecycle operations in which no policy changes that a
      lookup has begun to read, what is cached is a compile of the repository as it is, or about to
      be invalidated. */
  lemma {:induction false} ScheduleIsSound(ttl: nat, moves: seq<(Move, nat)>)
    requires OrderlySchedule(Start(ttl), moves)
    ensures Sound(Schedule(Start(ttl), moves))
  {
    hide Sound, Orderly, Next;
    if moves == [] {
      StartIsSound(ttl);
    } else {
      ScheduleIsSound(ttl, moves[..|moves| - 1]);
      NextIsSound(Schedule(Start(ttl), moves[..|moves| - 1]), moves[|moves| - 1].0, moves[|moves| - 1].1);
    }
  }

  lemma StartIsSound(ttl: nat)
    ensures Sound(Start(ttl))
  {
    hide Valid;
    InitialCoherent(ttl);
  }

  /** So the cache is coherent whenever no invalidation is to come, ... */
  lemma QuietIsCoherent(ttl: nat, moves: seq<(Move, nat)>)
    requires OrderlySchedule(Start(ttl), moves) && Schedule(Start(ttl), moves).pending == []
    ensures Coherent(Schedule(Start(ttl), moves).sys)
  {
    hide Schedule, FreshStored, CacheKey, Valid, Current, Plain;
    ScheduleIsSound(ttl, moves);
    var w := Schedule(Start(ttl), moves);
    forall q | Keyable(q) ensures EntryCoherent(w.sys, q) {
      assert Settled(w, q);
    }
  }

  /** ... and a lookup that the cache answers gets the constraints and rules that a compile of the
      repository gives, unless the entry is about to be invalidated. */
  lemma HitsAreFreshOrDoomed(ttl: nat, moves: seq<(Move, nat)>, q: Query, now: nat)
    requires OrderlySchedule(Start(ttl), moves) && Keyable(q)
    requires Hit(Schedule(Start(ttl), moves).sys, q, now).Some? && !Doomed(Schedule(Start(ttl), moves), q)
    ensures var sys := Schedule(Start(ttl), moves).sys;
            var expected := Compile(StoredHierarchy(sys.store, q), q.requestConstraints);
            Answer(sys, q, now).constraints == expected.constraints && Answer(sys, q, now).rules == expected.rules
  {
    hide Schedule, Compile, StoredHierarchy, CacheKey, Valid, Current, Plain, DrawsOn;
    ScheduleIsSound(ttl, moves);
    var w := Schedule(Start(ttl), moves);
    assert Settled(w, q);
    RecompileFlattened(StoredHierarchy(w.sys.store, q), None, q.requestConstraints);
  }

  // ---------------------------------------------------------------- a change while a lookup reads

  /** What a lookup has read, at whatever times: policies of its scopes that are still stored, with
      versions that are still there. */
  ghost predicate ReadOnce(s: Store, f: Flight) {
    && f.done <= 4
    && Snapshot(s, f.read, f.done)
    && (f.policy.Some? ==>
          && f.done < 4
          && Get(s.policies, f.policy.value.id).Some?
          && At(Get(s.policies, f.policy.value.id).value, SCOPES[f.done], IdAt(f.query, SCOPES[f.done])))
  }

  ghost predicate AllReadOnce(w: Shared) {
    Valid(w.sys.store) && forall i :: 0 <= i < |w.flights| ==> ReadOnce(w.sys.store, w.flights[i])
  }

  lemma AdvancedIsReadOnce(s: Store, f: Flight)
    requires Valid(s) && f.done < 4 && ReadOnce(s, f)
    ensures ReadOnce(s, Advanced(s, f))
  {
    hide Valid, ActiveVersion, PolicyByScope, Held, Snapshot, Get;
    var scope := SCOPES[f.done];
    var id := IdAt(f.query, scope);
    assert Precedence(scope) == f.done;
    SnapshotGrows(s, f.read, f.done, []);
    assert f.read + [] == f.read;
    match f.policy
    case Some(p) =>
      var v := ActiveVersion(s, p.id);
      if v.Some? {
        ActiveIsHeld(s, p, scope, id);
        SnapshotGrows(s, f.read, f.done, [HierarchyItem(scope, id, p.id, v.value.version, v.value.rules)]);
      }
    case None => ByScopeStored(s, scope, id);
  }

  lemma ReadOnceStays(s: Store, t: Store, f: Flight)
    requires Extends(t, s) && ReadOnce(s, f)
    ensures ReadOnce(t, f)
  {
    hide Snapshot, VersionsFor, Get;
    SnapshotStays(s, t, f.read, f.done);
  }

  lemma NextReadsOnce(w: Shared, m: Move, now: nat)
    requires AllReadOnce(w)
    ensures AllReadOnce(Next(w, m, now))
  {
    hide Valid, Changed, Advanced, ReadOnce, Extends, Kept, Hit;
    match m
    case Look(q) => NothingReadOnce(w.sys.store, q);
    case Read(i) =>
      if i < |w.flights| && w.flights[i].done < 4 {
        AdvancedIsReadOnce(w.sys.store, w.flights[i]);
      }
    case Keep(i) =>
      if i < |w.flights| && w.flights[i].done == 4 {
        KeptStore(w.sys, w.flights[i], now);
      }
    case Mutate(e) =>
      var c := Changed(w.sys.store, e, now);
      if c.Some? {
        ChangesExtend(w.sys.store, e, now);
        forall i | 0 <= i < |w.flights| ensures ReadOnce(c.value.store, w.flights[i]) {
          ReadOnceStays(w.sys.store, c.value.store, w.flights[i]);
        }
      }
    case Invalidate(i) =>
  }

  lemma NothingReadOnce(s: Store, q: Query)
    ensures ReadOnce(s, Flight(q, 0, None, []))
  {
  }

  lemma KeptStore(sys: System, f: Flight, now: nat)
    ensures Kept(sys, f, now).store == sys.store
  {
    hide Compile, KeyItem, CacheKey, EntryFor;
  }

  lemma {:induction false} ScheduleReadsOnce(ttl: nat, moves: seq<(Move, nat)>)
    ensures AllReadOnce(Schedule(Start(ttl), moves))
  {
    hide AllReadOnce, Next;
    if moves == [] {
      StartReadsOnce(ttl);
    } else {
      ScheduleReadsOnce(ttl, moves[..|moves| - 1]);
      NextReadsOnce(Schedule(Start(ttl), moves[..|moves| - 1]), moves[|moves| - 1].0, moves[|moves| - 1].1);
    }
  }

  lemma StartReadsOnce(ttl: nat)
    ensures AllReadOnce(Start(ttl))
  {
    hide Valid;
    InitialCoherent(ttl);
  }

  /** What a lookup writes is coherent exactly if what it has read compiles to what a lookup that starts
      now would read. */
  lemma KeptIffCurrent(w: Shared, i: nat, now: nat)
    requires i < |w.flights| && w.flights[i].done == 4
    requires Keyable(w.flights[i].query) && Plain(w.flights[i].query)
    ensures EntryCoherent(Next(w, Keep(i), now).sys, w.flights[i].query)
       <==> Compile(w.flights[i].read, None) == FreshStored(w.sys.store, w.flights[i].query)
  {
    hide Compile, StoredHierarchy, CacheKey, RequestRules, KeyItem, Narrow;
    var f := w.flights[i];
    KeptEntry(w.sys, f, now);
    assert f.read + [] == f.read;
    PlainCompile(f.read, f.query.requestConstraints);
  }

  /** Over every interleaving, what a lookup that brings nothing of its own writes is coherent exactly if
      the policies and versions it has read, each at its own time, are those in effect when it writes. */
  lemma KeptIffUnchanged(ttl: nat, moves: seq<(Move, nat)>, i: nat, now: nat)
    requires i < |Schedule(Start(ttl), moves).flights|
    requires var f := Schedule(Start(ttl), moves).flights[i]; f.done == 4 && Keyable(f.query) && Plain(f.query)
    ensures var w := Schedule(Start(ttl), moves);
            var q := w.flights[i].query;
            EntryCoherent(Next(w, Keep(i), now).sys, q) <==> w.flights[i].read == StoredHierarchy(w.sys.store, q)
  {
    hide Schedule, Next, Compile, StoredHierarchy, EntryCoherent, Plain, Valid, Snapshot, Keyable;
    var w := Schedule(Start(ttl), moves);
    var f := w.flights[i];
    ScheduleReadsOnce(ttl, moves);
    assert ReadOnce(w.sys.store, f);
    KeptIffCurrent(w, i, now);
    StoredIsSnapshot(w.sys.store, f.query);
    CompiledIdentifies(w.sys.store, f.read, StoredHierarchy(w.sys.store, f.query));
  }

  lemma PlainCompile(h: seq<HierarchyItem>, request: Option<RequestConstraints>)
    requires RequestRules(request) == []
    ensures Compile(h, request) == Compile(h, None)
  {
    RequestAsRules(ApplyAll(Unconstrained(), RulesOf(Sort(Before, h))), request);
    ApplyNone(ApplyAll(Unconstrained(), RulesOf(Sort(Before, h))));
  }

  const TENANT := Query("org", "", None, None, [], false)

  const DISABLE := ChangePolicy(BASELINE, UpdatePolicyInput(None, Some(Disabled), None))

  /** The lookup of a tenant reads the baseline policy; the policy is disabled, and the cache
      invalidated, while it awaits the organization's; then it writes what it has read. */
  const STALE: seq<(Move, nat)> :=
    [(Look(TENANT), 0), (Read(0), 0), (Read(0), 0), (Mutate(DISABLE), 0), (Invalidate(0), 0),
     (Read(0), 0), (Read(0), 0), (Read(0), 0), (Keep(0), 0)]

  lemma MoveBy(w: Shared, moves: seq<(Move, nat)>, k: nat)
    requires k < |moves|
    ensures Schedule(w, moves[..k + 1]) == Next(Schedule(w, moves[..k]), moves[k].0, moves[k].1)
  {
    hide Next;
    assert moves[..k + 1][..k] == moves[..k];
  }

  const BASE_ITEM := HierarchyItem(Global, None, BASELINE, 1, [])

  /** The lookup reads the baseline. */
  lemma BaselineRead(ttl: nat)
    ensures Schedule(Start(ttl), STALE[..3]) == Shared(Initial(ttl), [Flight(TENANT, 1, None, [BASE_ITEM])], [])
  {
    hide Schedule, Advanced;
    var w := Start(ttl);
    MoveBy(w, STALE, 0);
    MoveBy(w, STALE, 1);
    MoveBy(w, STALE, 2);
    assert STALE[..0] == [];
    assert Schedule(w, []) == w by { NoMoves(w); }
    var f0 := Flight(TENANT, 0, None, []);
    assert [] + [f0] == [f0];
    assert Missed(Initial(ttl), TENANT) == Initial(ttl);
    BaselineFound();
    var f1 := Advanced(Seeded(), f0);
    assert [f0][0 := f1] == [f1];
    assert [f1][0 := Advanced(Seeded(), f1)] == [Advanced(Seeded(), f1)];
  }

  lemma NoMoves(w: Shared)
    ensures Schedule(w, []) == w
  {
  }

  lemma BaselineFound()
    ensures var f0 := Flight(TENANT, 0, None, []);
            var f1 := Advanced(Seeded(), f0);
            f1.done == 0 && Advanced(Seeded(), f1) == Flight(TENANT, 1, None, [BASE_ITEM])
  {
    var item := BASE_ITEM;
    assert [] + [item] == [item];
  }

  function Disabling(): Store {
    Store([(BASELINE, Seeded().policies[0].1.(status := Disabled))], Seeded().versions, 1)
  }

  lemma DisableChanges()
    ensures Changed(Seeded(), DISABLE, 0) == Some(Change(Disabling(), Global, None))
  {
    var p := Seeded().policies[0].1;
    assert Seeded().policies[1..] == [];
    assert Put(Seeded().policies, BASELINE, p.(status := Disabled)) == Disabling().policies;
  }

  /** The baseline is disabled, ... */
  lemma BaselineDisabled(ttl: nat)
    ensures Schedule(Start(ttl), STALE[..5])
         == Shared(System(Disabling(), map[], ttl), [Flight(TENANT, 1, None, [BASE_ITEM])], [])
  {
    hide Schedule, Changed, Disabling;
    BaselineRead(ttl);
    DisableChanges();
    MoveBy(Start(ttl), STALE, 3);
    MoveBy(Start(ttl), STALE, 4);
    var change: (Scope, Option<string>) := (Global, None);
    assert [] + [change] == [change] && Dropped([change], 0) == [];
  }

  lemma NoOrganizationPolicy()
    ensures PolicyByScope(Disabling().policies, Organization, Some("org")) == None
  {
    assert Disabling().policies[1..] == [];
  }

  lemma SkipScope(w: Shared, read: seq<HierarchyItem>, n: nat)
    requires 0 < n < 4 && w.flights == [Flight(TENANT, n, None, read)] && w.sys.store == Disabling()
    ensures Next(w, Read(0), 0) == w.(flights := [Flight(TENANT, n + 1, None, read)])
  {
    NoOrganizationPolicy();
    var f := Flight(TENANT, n, None, read);
    assert [f][0 := f.(done := n + 1)] == [f.(done := n + 1)];
  }

  /** ... and the lookup goes on to the end. */
  lemma StaleRead(ttl: nat)
    ensures Schedule(Start(ttl), STALE[..8])
         == Shared(System(Disabling(), map[], ttl), [Flight(TENANT, 4, None, [BASE_ITEM])], [])
  {
    hide Schedule, Next, Disabling;
    BaselineDisabled(ttl);
    MoveBy(Start(ttl), STALE, 5);
    SkipScope(Schedule(Start(ttl), STALE[..5]), [BASE_ITEM], 1);
    MoveBy(Start(ttl), STALE, 6);
    SkipScope(Schedule(Start(ttl), STALE[..6]), [BASE_ITEM], 2);
    MoveBy(Start(ttl), STALE, 7);
    SkipScope(Schedule(Start(ttl), STALE[..7]), [BASE_ITEM], 3);
  }

  lemma NothingInEffect()
    ensures FreshStored(Disabling(), TENANT).policyVersions == map[]
  {
    NoOrganizationPolicy();
    assert StoredHierarchy(Disabling(), TENANT) == [];
    assert Sort(Before, []) == [];
  }

  lemma BaselineCompiled()
    ensures Compile([BASE_ITEM] + KeyItem(TENANT), None).policyVersions == map[BASELINE := 1]
  {
    hide Narrow, ApplyAll;
    assert [BASE_ITEM] + KeyItem(TENANT) == [BASE_ITEM];
    SortOne(BASE_ITEM);
  }

  /** Then the tenant is served the disabled policy until the entry expires, although no operation is
      under way any more. */
  lemma StaleEntry(ttl: nat, now: nat)
    requires now <= ttl
    ensures var w := Schedule(Start(ttl), STALE);
            && w.flights == [] && w.pending == []
            && !Coherent(w.sys)
            && Hit(w.sys, TENANT, now).Some?
            && Hit(w.sys, TENANT, now).value.policyVersions == map[BASELINE := 1]
            && FreshStored(w.sys.store, TENANT).policyVersions == map[]
  {
    hide Schedule, Compile, FreshStored, KeyItem, CacheKey, Disabling;
    StaleRead(ttl);
    MoveBy(Start(ttl), STALE, 8);
    assert STALE[..9] == STALE;
    var before := Schedule(Start(ttl), STALE[..8]);
    var w := Schedule(Start(ttl), STALE);
    KeptEntry(before.sys, before.flights[0], 0);
    BaselineCompiled();
    NothingInEffect();
    KeptExpiry(before.sys, before.flights[0]);
    var kept := w.sys.cache[CacheKey(TENANT)].policy;
    assert BASELINE in kept.policyVersions && BASELINE !in FreshStored(w.sys.store, TENANT).policyVersions;
    assert !EntryCoherent(w.sys, TENANT);
  }

  lemma KeptExpiry(sys: System, f: Flight)
    ensures Kept(sys, f, 0).cache[CacheKey(f.query)].expiresAt == sys.ttl && Kept(sys, f, 0).store == sys.store
  {
    hide Compile, KeyItem, CacheKey;
  }
}
