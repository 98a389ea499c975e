/** The cache of compiled policies (packages/policy/src/policy-cache.ts). */
module PolicyCache {
  import opened Collections
  import opened Text
  import opened PolicyCompiler

  datatype CacheEntry = CacheEntry(
    policy: EffectivePolicy, expiresAt: int, organizationId: string, workspaceId: string, apiKeyId: Option<string>)

  type Cache = map<string, CacheEntry>

  /** What is served for a key at a given time. An entry is still served at its expiry time. */
  function Served(c: Cache, key: string, now: int): Option<EffectivePolicy> {
    if key in c && now <= c[key].expiresAt then Some(c[key].policy) else None
  }

  function Part(parts: seq<string>, i: nat): string {
    if i < |parts| then parts[i] else ""
  }

  /** The scopes of an entry are read back from its key. */
  function EntryFor(key: string, policy: EffectivePolicy, expiresAt: int): CacheEntry {
    var parts := Split(key, ':');
    var k := Part(parts, 2);
    CacheEntry(policy, expiresAt, Part(parts, 0), Part(parts, 1), if k != "" && k != "none" then Some(k) else None)
  }

  /** Whether an entry was compiled under the given scope. */
  predicate Concerns(e: CacheEntry, scope: Scope, id: string) {
    match scope
    case Global => true
    case Organization => e.organizationId == id
    case Workspace => e.workspaceId == id
    case ApiKey => e.apiKeyId == Some(id)
  }

  function Without(c: Cache, scope: Scope, id: string): Cache {
    map k | k in c && !Concerns(c[k], scope, id) :: c[k]
  }

  class InMemoryPolicyCache {
    var entries: Cache
    var hits: nat
    var misses: nat
    const defaultTtlMs: nat

    constructor (ttlSeconds: Option<nat>)
      ensures entries == map[] && hits == 0 && misses == 0
      ensures defaultTtlMs == ttlSeconds.GetOr(60) * 1000
    {
      entries := map[];
      hits, misses := 0, 0;
      defaultTtlMs := ttlSeconds.GetOr(60) * 1000;
    }

    /** An expired entry is dropped when it is asked for. */
    method Lookup(key: string, now: int) returns (r: Option<EffectivePolicy>)
      modifies this
      ensures r == Served(old(entries), key, now)
      ensures entries == if r.Some? then old(entries) else old(entries) - {key}
      ensures hits + misses == old(hits) + old(misses) + 1
      ensures hits == old(hits) + if r.Some? then 1 else 0
    {
      if key !in entries {
        misses := misses + 1;
        return None;
      }
      var entry := entries[key];
      if now > entry.expiresAt {
        entries := entries - {key};
        misses := misses + 1;
        return None;
      }
      hits := hits + 1;
      return Some(entry.policy);
    }

    /** A lifetime of zero seconds counts as none given. */
    method Set(key: string, policy: EffectivePolicy, ttlSeconds: Option<nat>, now: int)
      modifies this`entries
      ensures var ttl := if ttlSeconds.Some? && ttlSeconds.value != 0 then ttlSeconds.value * 1000 else defaultTtlMs;
              entries == old(entries)[key := EntryFor(key, policy, now + ttl)]
    {
      var ttl := if ttlSeconds.Some? && ttlSeconds.value != 0 then ttlSeconds.value * 1000 else defaultTtlMs;
      entries := entries[key := EntryFor(key, policy, now + ttl)];
    }

    method Invalidate(key: string)
      modifies this`entries
      ensures entries == old(entries) - {key}
    {
      entries := entries - {key};
    }

    method InvalidateOrganization(organizationId: string)
      modifies this`entries
      ensures entries == Without(old(entries), Organization, organizationId)
    {
      var keys := entries.Keys;
      while keys != {}
        invariant keys <= old(entries).Keys
        invariant entries == map k | k in old(entries)
                                     && (k in keys || !Concerns(old(entries)[k], Organization, organizationId))
                             :: old(entries)[k]
        decreases |keys|
      {
        var k :| k in keys;
        if entries[k].organizationId == organizationId {
          entries := entries - {k};
        }
        keys := keys - {k};
      }
    }

    method InvalidateWorkspace(workspaceId: string)
      modifies this`entries
      ensures entries == Without(old(entries), Workspace, workspaceId)
    {
      var keys := entries.Keys;
      while keys != {}
        invariant keys <= old(entries).Keys
        invariant entries == map k | k in old(entries)
                                     && (k in keys || !Concerns(old(entries)[k], Workspace, workspaceId))
                             :: old(entries)[k]
        decreases |keys|
      {
        var k :| k in keys;
        if entries[k].workspaceId == workspaceId {
          entries := entries - {k};
        }
        keys := keys - {k};
      }
    }

    method InvalidateApiKey(apiKeyId: string)
      modifies this`entries
      ensures entries == Without(old(entries), ApiKey, apiKeyId)
    {
      var keys := entries.Keys;
      while keys != {}
        invariant keys <= old(entries).Keys
        invariant entries == map k | k in old(entries)
                                     && (k in keys || !Concerns(old(entries)[k], ApiKey, apiKeyId))
                             :: old(entries)[k]
        decreases |keys|
      {
        var k :| k in keys;
        if entries[k].apiKeyId == Some(apiKeyId) {
          entries := entries - {k};
        }
        keys := keys - {k};
      }
    }

    method InvalidateGlobal()
      modifies this`entries
      ensures entries == map[]
    {
      entries := map[];
    }
  }
}
