# The gateway's core, modelled and proved

This project models the parts of the gateway in which incremental state, money or concurrency must
agree with a simple specification, and proves that they do. `dafny verify dfyconfig.toml` checks all of it
(Dafny 4.11). Each module models one or two source files; `Collections`, `Sorting`, `Sums`, `Digits` and
`Text` are shared vocabulary.

**Audit.** `CanonicalJson` is the text an audit hash is taken over, with `JsonNumbers` for the numbers in it;
`AuditChain` the check of a chain. With a hash that has no collisions, passed as a parameter, an accepted chain commits to its whole history.

**Analytics.** `LatencySketch` is the mergeable histogram of latencies with its percentile estimate;
`Analytics` the rollups and what is projected into them; `AnalyticsEngine` the repository, the projection
engine, the query service and the rebuild as objects.

**Policy.** `PolicyCompiler` folds a hierarchy of rules into constraints; `PolicyEvaluator` decides requests and
routes by them; `PolicyMeaning` states the decisions over the rules themselves, and `PolicyNarrowing` what adding
policies can change. `PolicyRepository`, `PolicyCache` and `PolicyEngine` keep policies, cached policies and the
invalidation between them; `PolicyRaces` is the same with operations that overlap, and `PolicySnapshots` what
a hierarchy read earlier still means later.

**Concurrency.** `Idempotency` and `SingleFlight` are state machines whose steps are the stretches between
two awaits. Theorems are about all schedules.

**Credits and money.** `CreditLots` allocates a reservation, `CreditBalance` compares the wallet's two balances.
`Decimals`, `DecimalLaws` and `DecimalText` are fixed-point decimals, their rounding, and their text; `Payments`
the conversion to minor units by way of text.

**Metering.** `UsageLedger` is the deduplicated ledger with its aggregates; `MeteringService` the lifecycle of
requests and attempts.

**Embeddings and pricing.** `BatchPlanner`, `PriceResolver` and `ProviderCost`.

Where the source updates objects in place the model has classes whose methods are proved against functions
on values; lemmas about those functions carry the properties. Times are integer milliseconds, and the
current time, generated ids, random values and the hash are parameters. Parts of a composite key are kept
apart, except where a key is split again: there the text itself is modelled.

Where the code does not do what its comments promise, the model follows the code, and a theorem says
exactly when the promise is kept:

- Policies that narrow each other (`packages/policy/src/policy-compiler.ts:45-54`) open up once two allowlists
  have nothing in common, because an empty allowlist restricts nothing; a required residency is replaced,
  not narrowed, and narrowing it from a group to one region lets in global routes; output modality allowlists
  are not looked at; denying a provider tag with `in` or `equals` requires it; temperature rules are not
  compiled. A model or region that two allowlists cover by different entries is refused.
- A lookup that brings constraints or model rules of its own and misses the cache stores its result for
  everyone; one that hits does not look at model rules, so they count only on a miss. One that overlaps changes
  stores what is stale unless the policies and versions it has read are those in effect when it writes. Tenants
  share a cache key if an id has a colon, and attempts an idempotency key of usage.
- Deduplicated calls (`packages/cache/src/single-flight.ts:9-31`) get stuck on a failure when the work throws
  before it returns a promise.
- A failed or undefined result under an idempotency key is reported as in progress from then on.
- Rounding to 18 places moves values (`packages/money/src/decimal.ts:247-263`).
- The wallet's balances part once a lot expires with something left.
- Day and hour summaries part unless the window is made of whole days.
- A rebuild of the rollups drops denials, which leave no raw record, and counts a request projected twice once.
- Closing an attempt again with other usage, and adjusting twice by the same difference in one millisecond,
  part the ledger from the records.
- Images, audio, and cached input, reasoning and search usage without a rate or a schedule are free, and the
  cost status stays as it is.
- A price schedule for another canonical model is not rejected
  (`packages/pricing/src/provider-price-resolver.ts:185-193`) and may be preferred to one for the caller's own.

## Model

| member | source | states |
|---|---|---|
| CanonicalJson.CanonicalIsFaithful | packages/audit/src/tamper-chain.ts:9-30 | On JSON values the text is an identity: two values have the same text iff they are the same up to key insertion order |
| CanonicalJson.CanonicalIdentifies | packages/audit/src/tamper-chain.ts:9-30 | On all values of the model: the same text iff the same once dates are read as their ISO strings, `[undefined]` as `[]`, numbers that are not finite as null, and negative zero as zero |
| JsonNumbers.PrintNumberInjective | packages/audit/src/tamper-chain.ts:10-12 | The text of a finite number, with or without fraction and exponent, is that of no other number, also at the start of a longer text |
| JsonNumbers.OfIntInjective | packages/audit/src/tamper-chain.ts:41-41 | Different sequence numbers are different numbers |
| CanonicalJson.Unambiguous | packages/audit/src/tamper-chain.ts:9-30 | No text of a JSON value is a proper prefix of another in any context, so concatenated texts split in one way only |
| AuditChain.VerifyAuditChain | packages/audit/src/tamper-chain.ts:85-136 | Accepts exactly the chains whose every event has the next sequence number, the right link and its own hash; otherwise reports the first event out of place |
| AuditChain.HashCommits | packages/audit/src/tamper-chain.ts:35-72 | With a collision-free hash, two events have the same hash iff they agree on all 18 hashed fields, with defaults applied and metadata up to key order |
| AuditChain.AgreeBackwards | packages/audit/src/tamper-chain.ts:85-136 | Accepted chains that share one hash agree on every hashed field of all events at equal distance before it |
| AuditChain.ChainCommits | packages/audit/src/tamper-chain.ts:85-136 | Accepted chains of equal length with the same start and final hash agree on every event |
| AuditChain.FinalHashCommits | packages/audit/src/tamper-chain.ts:85-136 | If no event hashes to the start value, the final hash alone fixes length and contents of the history |
| LatencySketch.LatencyDistributionSketch.Record | packages/analytics/src/distribution.ts:47-70 | Ignores negative latencies; otherwise the new sketch is the old one with one more value, counted in the first bucket whose bound it does not exceed |
| LatencySketch.LatencyDistributionSketch.CountInBucket | packages/analytics/src/distribution.ts:62-69 | Adds one to the first bucket that holds the value, the overflow bucket if none does |
| LatencySketch.LatencyDistributionSketch.Merge | packages/analytics/src/distribution.ts:72-96 | The new sketch is the merge of both, also when a sketch is merged into itself |
| LatencySketch.LatencyDistributionSketch.GetPercentile | packages/analytics/src/distribution.ts:98-124 | The loop computes the specified percentile |
| LatencySketch.LatencyDistributionSketch.ToJSON | packages/analytics/src/distribution.ts:131-145 | The stored form, which reads back as the sketch |
| LatencySketch.StoreRoundTrip | packages/analytics/src/distribution.ts:131-150 | Storing and loading a sketch gives the same sketch |
| LatencySketch.MergeCommutes | packages/analytics/src/distribution.ts:72-96 | Merging is commutative |
| LatencySketch.MergeAssociates | packages/analytics/src/distribution.ts:72-96 | Merging is associative |
| LatencySketch.MergeIsConcat | packages/analytics/src/distribution.ts:47-96 | The merge of the sketches of two lists of latencies is the sketch of their concatenation: any mix of recording and merging gives the same sketch |
| LatencySketch.LocateFindsBucket | packages/analytics/src/distribution.ts:98-124 | The walk over cumulative counts stops in the bucket of the true ranked value |
| LatencySketch.AtRankCases | packages/analytics/src/distribution.ts:98-124 | The walk stops in a bucket that is not empty, so the branch for an empty bucket is never taken |
| LatencySketch.PercentileIsClose | packages/analytics/src/distribution.ts:98-124 | For 0 < p < 100 the estimate lies between the extremes and within one bucket width of the true ceil(p n / 100)-th smallest value; in the overflow bucket it is the largest value |
| LatencySketch.PercentileMonotone | packages/analytics/src/distribution.ts:98-124 | A higher percentile never gives a smaller estimate |
| Analytics.MergeLaws | packages/analytics/src/repository.ts:97-157 | Merging the metrics of rollups is commutative and associative with a neutral element |
| Analytics.SaveEffect | packages/analytics/src/repository.ts:97-157 | Saving a rollup merges its metrics under its own key and leaves every other key as it was |
| Analytics.ProjectEffect | packages/analytics/src/projector.ts:41-233 | A projected fact changes exactly one hour rollup and one day rollup |
| Analytics.DayIsMergeOfHours | packages/analytics/src/projector.ts:14-36 | After any projections each day rollup is the merge of that day's 24 hour rollups with the same dimensions: counters, maps and sketches |
| Analytics.SortTotals | packages/analytics/src/repository.ts:159-185 | The order in which rollups are returned does not change what a summary adds up |
| Analytics.SummarizeFacts | packages/analytics/src/query-service.ts:94-207 | A summary over stored rollups is the sum of the shares of the projected facts |
| Analytics.SummariesAgree | packages/analytics/src/query-service.ts:63-207 | Hour and day granularity give the same totals and percentiles for all sequences of facts iff the window is made of whole days |
| AnalyticsEngine.AddCountsByName | packages/analytics/src/repository.ts:97-157 | The loop that adds error or denial counts by name computes the pointwise sum |
| AnalyticsEngine.InMemoryAnalyticsRepository.Save | packages/analytics/src/repository.ts:97-157 | Saves a rollup in place or anew, as specified |
| AnalyticsEngine.InMemoryAnalyticsRepository.ClearAllRollups | packages/analytics/src/repository.ts:311-313 | Removes all rollups and nothing else |
| AnalyticsEngine.AnalyticsProjectionEngine.ProjectRequest | packages/analytics/src/projector.ts:41-123 | Stores the raw records and folds the request into its hour and its day rollup |
| AnalyticsEngine.AnalyticsProjectionEngine.ProjectDenial | packages/analytics/src/projector.ts:125-233 | Folds a policy or quota denial into its hour and its day rollup |
| AnalyticsEngine.RunsAreSteps | packages/analytics/src/projector.ts:41-233 | The state after any run is built from single projections, and every run keeps the rollups well-formed |
| AnalyticsEngine.RebuildRestores | packages/analytics/src/rebuild.ts:7-34 | If each request was projected once with its own attempts, a rebuild restores the live state exactly iff no denial was projected |
| AnalyticsEngine.DenialsAreForgotten | packages/analytics/src/rebuild.ts:7-34 | After a run of one denial a rebuild leaves no rollups |
| AnalyticsEngine.RebuildCountsIff | packages/analytics/src/rebuild.ts:7-34 | After any run, a rebuild counts as many requests as the live rollups iff no denial was projected and no request twice |
| AnalyticsEngine.ProjectedTwice | packages/analytics/src/rebuild.ts:7-34 | A request projected twice is counted twice, and once after a rebuild |
| AnalyticsEngine.RebuildIsIdempotent | packages/analytics/src/rebuild.ts:7-34 | A second rebuild changes nothing |
| AnalyticsEngine.AnalyticsRebuildService.RebuildFromAuthoritativeLedger | packages/analytics/src/rebuild.ts:7-34 | The loop over the stored requests leaves the specified rebuilt state |
| AnalyticsEngine.SummariesOfRunsAgree | packages/analytics/src/query-service.ts:63-207 | Over all runs of the projection engine, hour and day granularity give the same totals and percentiles iff the window is made of whole days |
| AnalyticsEngine.AnalyticsQueryService.Compute | packages/analytics/src/query-service.ts:94-207 | The loop over the rollups of the window computes the specified summary |
| AnalyticsEngine.AnalyticsQueryService.GetCustomerUsageSummary | packages/analytics/src/query-service.ts:63-207 | Fails iff the window is reversed; otherwise answers from its cache for fifteen seconds, and else computes and caches the summary |
| AnalyticsEngine.CacheIsRecent | packages/analytics/src/query-service.ts:43-61 | Every cached summary is that of the rollups at a query fifteen seconds before it expires |
| AnalyticsEngine.AnswersAreRecent | packages/analytics/src/query-service.ts:63-207 | In every run of projections and queries, an answer is the summary of the rollups as they are, or as they were at a query at most fifteen seconds before |
| PolicyCompiler.IntersectSets | packages/policy/src/policy-compiler.ts:23-32 | The result holds, up to case, exactly the names in both lists, or all of the target's if there was no list |
| PolicyCompiler.UnionSets | packages/policy/src/policy-compiler.ts:37-43 | The result holds exactly the names of both lists, folded to one case, each once |
| PolicyCompiler.CompileEffectivePolicy | packages/policy/src/policy-compiler.ts:55-347 | The nested loops over the sorted hierarchy compute the specified policy: versions, flattened rules and constraints |
| PolicyCompiler.NarrowByRequest | packages/policy/src/policy-compiler.ts:349-401 | A request's constraints leave what applying them as rules of one more scope would leave |
| PolicyCompiler.RequestAsRules | packages/policy/src/policy-compiler.ts:349-401 | A request's constraints act exactly like rules of a scope below the API key |
| PolicyCompiler.RecompileFlattened | packages/policy/src/policy-engine.ts:80-93 | Compiling a compiled policy's flattened rules again with a request's constraints gives the constraints and rules of compiling the original hierarchy with them |
| PolicyMeaning.RuleEffect | packages/policy/src/policy-compiler.ts:79-345 | What one rule does to every verdict: a deny rule refuses what it names and nothing else; an allow rule leaves the shared entries, or its own; a feature is off, a ceiling exceeded or a tag missing iff it was or the rule says so |
| PolicyMeaning.DenylistMeans | packages/policy/src/policy-compiler.ts:79-345 | A name is on a compiled denylist iff some deny rule names it |
| PolicyMeaning.AllowlistMeans | packages/policy/src/policy-compiler.ts:23-32 | A name is off a compiled allowlist iff the allow rules have an entry in common and none of the common entries covers the name |
| PolicyMeaning.FeatureMeans | packages/policy/src/policy-compiler.ts:226-293 | A feature is off iff some rule turns it off, whatever others say |
| PolicyMeaning.CeilingMeans | packages/policy/src/policy-compiler.ts:254-326 | A number exceeds a compiled ceiling iff it exceeds the ceiling of some rule: the strictest wins |
| PolicyMeaning.TagsMean | packages/policy/src/evaluator.ts:385-401 | A route lacks a required tag iff it lacks a tag of some rule that requires it |
| PolicyMeaning.CompiledMeansRules | packages/policy/src/evaluator.ts:19-120 | For names compared exactly, the compiled policy passes a name iff no deny rule names it and every allow rule does, or else the allow rules have no entry in common |
| PolicyMeaning.MeaningIsExact | packages/policy/src/policy-compiler.ts:23-43 | In every dimension, the compiled policy passes exactly what all allow rules and no deny rule name, iff the allow rules have a common entry (or there are none) and common entries cover each endorsed name that an allow entry stands for, unless an empty deny entry covers every model |
| PolicyMeaning.CoveringIsSafe | packages/policy/src/region-groups.ts:66-83 | What passes is named by every allow rule and by no deny rule, as long as the allow rules have a common entry or there are none |
| PolicyMeaning.PrefixesDoNotIntersect | packages/policy/src/evaluator.ts:72-86 | A model covered by both of two allow rules, by prefixes of different length, is refused |
| PolicyMeaning.RequestDecision | packages/policy/src/evaluator.ts:14-335 | A request passes iff the rules in force permit it, over all checks of the evaluator |
| PolicyMeaning.RouteDecision | packages/policy/src/evaluator.ts:340-424 | A route passes iff the rules in force permit it |
| PolicyMeaning.RequestDenialIsTruthful | packages/policy/src/evaluator.ts:14-335 | The code of a denied request names a check that the rules do fail |
| PolicyMeaning.RouteDenialIsTruthful | packages/policy/src/evaluator.ts:340-424 | The code of an excluded route names a check that the rules do fail |
| PolicyNarrowing.RefusalsAreKept | packages/policy/src/policy-compiler.ts:23-43 | In every dimension, adding rules keeps every refusal iff no allowlist that restricted something becomes empty, or an empty model entry covers or forbids every model |
| PolicyNarrowing.NothingPasses | packages/policy/src/evaluator.ts:72-86 | Every name is refused iff all that the allowlist covers is forbidden |
| PolicyNarrowing.ResidencyIsKept | packages/policy/src/policy-compiler.ts:166-177 | Replacing one required residency by another keeps every refusal iff there was none, both are for the same place, or a single region is replaced by global |
| PolicyNarrowing.RegionsSampled | packages/policy/src/region-groups.ts:66-134 | Whether regions are kept, or any passes, shows in the regions the rules name and one they do not |
| PolicyNarrowing.RegionPartsKept | packages/policy/src/region-groups.ts:88-134 | Regions are kept if the list of regions and the residency are |
| PolicyNarrowing.AddingPoliciesOnlyNarrows | packages/policy/src/policy-compiler.ts:45-54 | Adding policies at any scopes turns no denied request into an approved one iff every list a request is checked against is kept, or no model passes any more |
| PolicyNarrowing.AddingPoliciesOnlyNarrowsRoutes | packages/policy/src/policy-compiler.ts:45-54 | Adding policies turns no excluded route into an eligible one iff the list of providers and the regions are kept, or no provider or no region passes any more |
| PolicyNarrowing.DisjointAllowlistsOpen | packages/policy/src/evaluator.ts:359-368 | Two disjoint provider allowlists let through a provider neither names |
| PolicyNarrowing.AnotherResidencyReplaces | packages/policy/src/policy-compiler.ts:166-177 | A workspace that requires residency in the US admits a US route that the organization's EU excluded |
| PolicyNarrowing.NarrowerResidencyAdmitsGlobal | packages/policy/src/region-groups.ts:66-83 | A workspace that requires one region of the EU admits a global route that the organization's EU excluded |
| PolicyMeaning.OutputAllowlistIsIgnored | packages/policy/src/evaluator.ts:155-170 | An allowlist of output modalities never changes a decision |
| PolicyMeaning.TemperatureIsNotGoverned | packages/policy/src/evaluator.ts:277-299 | A temperature rule, wherever it stands, is compiled to nothing, and no rules decide on the temperature of a request |
| PolicyMeaning.DenyingATag | packages/policy/src/policy-compiler.ts:179-192 | Wherever it stands, a deny rule for a provider tag with `in` or `equals` excludes the routes that do not carry the tag and leaves the other decisions; with any other operator it decides nothing |
| PolicyEvaluator.EvaluateRoutesBatch | packages/policy/src/evaluator.ts:429-455 | The loop splits the candidates as specified |
| PolicyEvaluator.BatchPartitions | packages/policy/src/evaluator.ts:429-455 | Every candidate ends up on exactly one side, as often as it was given |
| PolicyEvaluator.BatchDecides | packages/policy/src/evaluator.ts:429-455 | A candidate is eligible iff its own evaluation passes, and is excluded with the code of that evaluation |
| PolicyRepository.NewIdIsNew | packages/policy/src/policy-repository.ts:139-139 | A generated policy id differs from the baseline's and from every earlier one |
| PolicyRepository.HighestVersion | packages/policy/src/policy-repository.ts:112-114 | The largest version number stored |
| PolicyRepository.InMemoryPolicyRepository.GetPolicyByScope | packages/policy/src/policy-repository.ts:271-286 | The loop finds the first policy of the scope that is not archived |
| PolicyRepository.InMemoryPolicyRepository.GetActiveVersion | packages/policy/src/policy-repository.ts:288-302 | The active version, unless the policy is missing, disabled or archived |
| PolicyRepository.InMemoryPolicyRepository.CreatePolicy | packages/policy/src/policy-repository.ts:104-170 | A new policy, or a new active version of the one that holds the scope; nothing else changes |
| PolicyRepository.InMemoryPolicyRepository.UpdatePolicy | packages/policy/src/policy-repository.ts:172-204 | Throws for a missing policy or an unexpected version and then changes nothing; otherwise replaces one policy |
| PolicyRepository.InMemoryPolicyRepository.CreateVersion | packages/policy/src/policy-repository.ts:206-236 | Throws for a missing policy; otherwise appends the next version |
| PolicyRepository.InMemoryPolicyRepository.ActivateVersion | packages/policy/src/policy-repository.ts:238-265 | Throws for a missing policy or version and then changes nothing; otherwise activates the version |
| PolicyRepository.ChangeIsScoped | packages/policy/src/policy-repository.ts:271-302 | A change to one policy leaves what is in effect at every other scope as it was |
| PolicyCache.InMemoryPolicyCache.Lookup | packages/policy/src/policy-cache.ts:32-47 | Serves an entry up to and including its expiry time, drops it afterwards, and counts hits and misses |
| PolicyCache.InMemoryPolicyCache.Set | packages/policy/src/policy-cache.ts:49-64 | Files an entry under the scopes read back from its key |
| PolicyCache.InMemoryPolicyCache.InvalidateOrganization | packages/policy/src/policy-cache.ts:70-76 | Removes exactly the entries of the organization |
| PolicyCache.InMemoryPolicyCache.InvalidateWorkspace | packages/policy/src/policy-cache.ts:78-84 | Removes exactly the entries of the workspace |
| PolicyCache.InMemoryPolicyCache.InvalidateApiKey | packages/policy/src/policy-cache.ts:86-92 | Removes exactly the entries of the API key |
| PolicyEngine.KeysIdentifyTenants | packages/policy/src/policy-engine.ts:75-75 | Two tenants share a cache key iff they are the same, for ids without colon and no API key called `none` |
| PolicyEngine.KeysAreUnique | packages/policy/src/policy-engine.ts:75-75 | No other tenant shares a tenant's cache key iff its ids have no colon and it has an API key, not called `none` |
| PolicyEngine.StepKeepsCoherence | packages/policy/src/policy-engine.ts:303-439 | Run to its end, every lifecycle operation, and every lookup that brings nothing of its own or is answered by the cache, keeps the cache coherent with the repository |
| PolicyEngine.CacheStaysCoherent | packages/policy/src/policy-engine.ts:65-208 | Over any run of such operations, one after the other, every cached policy is what compiling the current repository gives |
| PolicyEngine.AnswersAreFresh | packages/policy/src/policy-engine.ts:65-208 | From a coherent cache every lookup gets the constraints and rules of compiling the current repository with the request's constraints |
| PolicyEngine.EveryLookupIsFresh | packages/policy/src/policy-engine.ts:65-208 | Every plain lookup of every such run is answered with a compile of the repository as it is then |
| PolicyRaces.ScheduleIsSound | packages/policy/src/policy-engine.ts:65-208 | Over every interleaving of the awaits of lookups and lifecycle operations, in which no policy changes that a lookup has begun to read, every cached policy is a compile of the current repository or about to be invalidated |
| PolicyRaces.QuietIsCoherent | packages/policy/src/policy-engine.ts:65-208 | In such an interleaving the cache is coherent whenever no invalidation is to come |
| PolicyRaces.HitsAreFreshOrDoomed | packages/policy/src/policy-engine.ts:77-96 | In such an interleaving a cache hit gives the constraints and rules of a fresh compile, unless the entry is about to be invalidated |
| PolicyRaces.ChangeIsCurrent | packages/policy/src/policy-engine.ts:98-176 | A change to a policy that a lookup has not begun to read leaves what it has read current |
| PolicyRaces.KeptIffUnchanged | packages/policy/src/policy-engine.ts:98-208 | Over every interleaving, what a lookup that brings nothing of its own stores is coherent iff the policies and versions it has read, each at its own time, are those in effect when it writes |
| PolicySnapshots.ChangesExtend | packages/policy/src/policy-repository.ts:104-265 | No lifecycle operation removes a policy, moves it to another scope, or takes back a version |
| PolicySnapshots.CompiledIdentifies | packages/policy/src/policy-compiler.ts:55-78 | Hierarchies that were read from the repository, at whatever times, compile to the same policy iff they name the same versions of the same policies |
| PolicyRaces.StaleEntry | packages/policy/src/policy-engine.ts:77-205 | A lookup that has read the baseline, which is disabled and invalidated while it awaits the policy of the organization, stores it, and it is served until the entry expires |
| PolicyEngine.WhatMayBeStored | packages/policy/src/policy-engine.ts:198-205 | On the seeded repository, a lookup that misses leaves the cache coherent iff it brings neither constraints nor model rules |
| PolicyEngine.CachedVersions | packages/policy/src/policy-engine.ts:80-93 | A cached answer to a request with constraints records `cached` version 1 as its only version |
| PolicyEngine.KeyRulesCountIff | packages/policy/src/policy-engine.ts:77-96 | From a coherent cache, an answer has the rules of a fresh compile, those of the API key included, iff the cache does not answer or the key brings no model rules |
| PolicyEngine.DeniedModelServed | packages/policy/src/policy-engine.ts:77-96 | On the seeded repository, after a plain lookup, the lookup of the same tenant with a rule that denies a model is answered without any constraint |
| PolicyEngine.PolicyEngine.ResolveHierarchy | packages/policy/src/policy-engine.ts:98-176 | The hierarchy of the policies in effect, global to API key |
| PolicyEngine.PolicyEngine.GetEffectivePolicy | packages/policy/src/policy-engine.ts:65-208 | Answers and changes the cache as specified; without a cache, compiles afresh |
| PolicyEngine.PolicyEngine.InvalidateScope | packages/policy/src/policy-engine.ts:424-439 | Removes from the cache what the scope concerns |
| PolicyEngine.PolicyEngine.CreatePolicy | packages/policy/src/policy-engine.ts:305-331 | Repository and cache change as the specified step |
| PolicyEngine.PolicyEngine.UpdatePolicy | packages/policy/src/policy-engine.ts:333-360 | Repository and cache change as the specified step; a call that throws changes neither |
| PolicyEngine.PolicyEngine.CreateVersion | packages/policy/src/policy-engine.ts:362-388 | Repository and cache change as the specified step |
| PolicyEngine.PolicyEngine.ActivateVersion | packages/policy/src/policy-engine.ts:390-422 | Repository and cache change as the specified step; a call that throws changes neither |
| Idempotency.StepInvariant | packages/idempotency/src/index.ts:27-71 | Every step of every caller keeps the invariant: owners, fingerprints, completed responses, starts |
| Idempotency.AtMostOneStart | packages/idempotency/src/index.ts:27-71 | In every interleaving, with store operations that may throw before or after they are applied, the work behind a key starts at most once |
| Idempotency.ReplaysAreGenuine | packages/idempotency/src/index.ts:43-52 | Every replayed value was returned by an execution under the same key and fingerprint |
| Idempotency.ConflictsAreGenuine | packages/idempotency/src/index.ts:43-45 | A call is refused as conflicting only if another call used the key with another fingerprint |
| Idempotency.SchedulesEnd | packages/idempotency/src/index.ts:61-62 | No call retries more than once after a lost claim, and n calls take at most 5n steps in all |
| Idempotency.Progress | packages/idempotency/src/index.ts:27-71 | A call that has not ended can always take a step |
| Idempotency.ExactlyOneStart | packages/idempotency/src/index.ts:53-71 | While the store does not throw, a key whose calls are being answered has been started exactly once |
| Idempotency.VerdictsAreFinal | packages/idempotency/src/index.ts:43-70 | Once the owner of a record has ended, the record never changes again |
| Idempotency.LateCallsAreTold | packages/idempotency/src/index.ts:43-70 | A call that has not ended when the owner of its record has is told, unless the store throws, what the record says: a value iff it is completed with one for the same fingerprint; so after a failure nobody ever gets a value |
| Idempotency.LostClaimBlocks | packages/idempotency/src/index.ts:61-61 | A claim that is applied but reported as failed leaves a key in progress that nobody works on |
| Idempotency.LostCompletionIsOverwritten | packages/idempotency/src/index.ts:63-70 | A completion that is applied but reported as failed is overwritten by a failure |
| Idempotency.IdempotencyStore.Claim | packages/idempotency/src/index.ts:17-17 | Inserts the record iff there is none |
| Idempotency.Call.Find | packages/idempotency/src/index.ts:38-52 | One call from the answer of `find` to its next await |
| Idempotency.Call.Claim | packages/idempotency/src/index.ts:53-62 | One call from the answer of `claim` to its next await |
| Idempotency.Call.Settle | packages/idempotency/src/index.ts:63-69 | One call from the end of the work to its next await |
| Idempotency.Call.Complete | packages/idempotency/src/index.ts:65-66 | One call from the answer of `complete` to its end, or to the recording of a failure |
| Idempotency.Call.Fail | packages/idempotency/src/index.ts:67-70 | One call from the recorded failure to its end |
| SingleFlight.CallersShareOneOutcome | packages/cache/src/single-flight.ts:9-31 | In every interleaving, clears and synchronous throws included, calls that await one flight have the same key and the same outcome, and only one of them is not deduplicated |
| SingleFlight.RunSound | packages/cache/src/single-flight.ts:9-31 | Each flight has exactly one call that started it, and no call gets anything but its flight's outcome |
| SingleFlight.StepExact | packages/cache/src/single-flight.ts:9-47 | A step keeps the map equal to the running flights iff it is no clear of a map that is not empty and no start of work that throws at once |
| SingleFlight.MapIsTheRunningFlights | packages/cache/src/single-flight.ts:9-47 | Throughout a run a key is in the map exactly while one flight for it is running, iff every step was such |
| SingleFlight.JoinsIffRunning | packages/cache/src/single-flight.ts:14-30 | While the map is exact, a call joins a flight iff one is running for its key, and otherwise starts one |
| SingleFlight.PendingCount | packages/cache/src/single-flight.ts:41-43 | While the map is exact its size is the number of running flights |
| SingleFlight.ThrowingAtOnceSticks | packages/cache/src/single-flight.ts:20-28 | Work that throws before returning a promise leaves its failure under the key |
| SingleFlight.StuckForGood | packages/cache/src/single-flight.ts:14-28 | Until the map is cleared the key stays on that failure |
| SingleFlight.StuckJoins | packages/cache/src/single-flight.ts:14-18 | Every later call for the key is deduplicated onto the failure |
| SingleFlight.SingleFlightGroup.Enter | packages/cache/src/single-flight.ts:9-31 | A call up to its await changes map, flights and callers as the specified step |
| SingleFlight.SingleFlightGroup.Settle | packages/cache/src/single-flight.ts:20-26 | The end of the work changes them as the specified step |
| SingleFlight.SingleFlightGroup.Clear | packages/cache/src/single-flight.ts:45-47 | Empties the map and leaves the flights |
| CreditLots.OrderIsSorted | packages/credits/src/lot-allocator.ts:18-62 | The consumption order holds exactly the eligible lots, and none precedes one that should be consumed earlier |
| CreditLots.DrainLots | packages/credits/src/lot-allocator.ts:98-124 | The loop drains the ordered lots as specified |
| CreditLots.AllocateCreditLots | packages/credits/src/lot-allocator.ts:74-146 | Allocation, or the error thrown, as specified |
| CreditLots.AllocationOutcome | packages/credits/src/lot-allocator.ts:74-146 | For lots with distinct ids: throws iff the eligible lots hold less than required, by the reported shortfall; otherwise takes exactly what is required, in consumption order, and changes nothing but the reservations |
| CreditLots.NothingOverReserved | packages/credits/src/lot-allocator.ts:108-119 | A lot that changed was eligible and keeps a non-negative availability; the others are unchanged |
| CreditLots.PrefixesGiveMost | packages/credits/src/lot-allocator.ts:98-124 | Every prefix of the order gives the lesser of what is required and what it has, and no feasible allocation takes more from any prefix |
| CreditLots.InputOrderIsIrrelevant | packages/credits/src/lot-allocator.ts:25-62 | The allocations, or the error, do not depend on the order in which the lots are given |
| CreditBalance.CalculateBalanceFromLots | packages/credits/src/balance-projector.ts:13-39 | The loop sums what unexpired lots hold, and clamps |
| CreditBalance.CalculateBalanceFromLedger | packages/credits/src/balance-projector.ts:44-105 | The fold over the sorted entries; before clamping the total is available plus reserved |
| CreditBalance.VerifyBalanceIntegrity | packages/credits/src/balance-projector.ts:115-143 | Matches iff the balances are equal, and reports exactly the amounts that differ |
| CreditBalance.LedgerIgnoresOrder | packages/credits/src/balance-projector.ts:44-105 | The ledger balance is the same for every order of the entries |
| CreditBalance.LedgerConserves | packages/credits/src/balance-projector.ts:59-93 | Every entry moves as much into the total as into available and reserved together |
| CreditBalance.RunBalanced | packages/credits/src/balance-projector.ts:44-105 | Over any run of grants and reservations the ledger records what the lots hold and reserve |
| CreditBalance.IntegrityHoldsUnlessLapsed | packages/credits/src/balance-projector.ts:13-143 | After any such run, at any time, the two balances agree iff no lot that has expired by then still holds anything |
| CreditBalance.LapsedGrant | packages/credits/src/balance-projector.ts:13-105 | After one grant that has expired the ledger shows its amount, and the lots nothing |
| DecimalLaws.MulRounds | packages/money/src/decimal.ts:128-136 | A product is rounded once to the nearest 10^-18, halves away from zero |
| DecimalLaws.DivRounds | packages/money/src/decimal.ts:138-151 | So is a quotient; division fails iff the divisor is zero |
| DecimalLaws.FromUnitsRoundsOnce | packages/money/src/decimal.ts:102-116 | For integer quantity and unit the price is one rounding of the exact product over the unit |
| DecimalLaws.NearestError | packages/money/src/decimal.ts:128-151 | Such a rounding is off by at most half a unit |
| DecimalLaws.FromUnitsMonotone | packages/money/src/decimal.ts:102-116 | A larger quantity never costs less |
| DecimalLaws.SplittingCostsLittle | packages/money/src/decimal.ts:102-116 | Billing a quantity in two parts changes the total by at most one unit of 10^-18 |
| DecimalLaws.RoundsToOne | packages/money/src/decimal.ts:238-287 | What each rounding mode promises leaves exactly one result |
| DecimalLaws.MinorUnitsRound | packages/money/src/decimal.ts:238-287 | Rounding keeps its mode's promise below 18 places; at 18 places it does so iff the mode is not `HALF_UP`, and, for `HALF_EVEN`, the raw value is even; more places fail |
| DecimalLaws.ZeroAtFullScale | packages/money/src/decimal.ts:247-253 | Zero at 18 places in `HALF_UP` is one |
| DecimalLaws.RoundError | packages/money/src/decimal.ts:299-305 | Rounding to the nearest is off by at most half a unit of the last place, below 18 places |
| DecimalLaws.MinorUnitsReturn | packages/money/src/decimal.ts:238-317 | Minor units come back unchanged in every mode |
| DecimalText.PrintParse | packages/money/src/decimal.ts:349-370 | Reading the printed form gives the same decimal, for every decimal |
| DecimalText.FixedParse | packages/money/src/decimal.ts:322-344 | Reading `toFixed` gives the decimal rounded to those places; it fails iff there are more than 18 |
| DecimalText.ExponentsScale | packages/money/src/decimal.ts:68-80 | A text with an exponent reads as the text without it, times the power of ten: exactly upwards, and rounded once, half away from zero, downwards |
| DecimalText.LongFractionsAreCut | packages/money/src/decimal.ts:84-96 | A text without an exponent reads as the same text with its fraction cut to eighteen digits |
| DecimalText.SpellingsDiffer | packages/money/src/decimal.ts:58-97 | Half of 10^-18 reads as 10^-18 when written `5e-19`, and as zero when written out |
| Payments.TextIsArithmetic | packages/payments/src/types.ts:33-41 | The way to minor units through text gives the arithmetic result, for every amount and currency |
| Payments.FromMinorIsExact | packages/payments/src/types.ts:43-60 | The way back through text gives the decimal the minor units stand for |
| Payments.MinorUnitsRoundTrip | packages/payments/src/types.ts:33-60 | Minor units come back unchanged, for every currency |
| Payments.AmountRoundTrip | packages/payments/src/types.ts:33-60 | An amount comes back within half a minor unit |
| UsageLedger.RebuildAggregates | packages/metering/src/projector.ts:107-191 | The loop computes the specified aggregates |
| UsageLedger.InMemoryUsageLedgerRepository.AppendUsageEvent | packages/metering/src/repository.ts:104-129 | A duplicate changes nothing; otherwise the event is stored and folded into its two aggregates |
| UsageLedger.InMemoryUsageLedgerRepository.AppendUsageEventsBatch | packages/metering/src/repository.ts:131-147 | As many appends one after the other, with the counts of both kinds |
| UsageLedger.InMemoryUsageLedgerRepository.Rebuild | packages/metering/src/repository.ts:208-222 | Aggregates from nothing, over the stored events |
| UsageLedger.AggregatesAreRebuilt | packages/metering/src/repository.ts:104-222 | After any sequence of appends, batches and rebuilds the stored aggregates are those of a rebuild, and no two accepted events share an id or an idempotency key |
| UsageLedger.ReplayIsIgnored | packages/metering/src/repository.ts:104-147 | Sending a batch again changes nothing |
| UsageLedger.CountsAreSums | packages/metering/src/projector.ts:61-191 | A stored count is the sum of the quantities of its events |
| UsageLedger.CountsIgnoreOrder | packages/metering/src/projector.ts:61-191 | Counts do not depend on the order of the events |
| UsageLedger.DayIsSumOfHours | packages/metering/src/projector.ts:3-43 | Every count of a stored daily aggregate is the sum over the day's 24 hourly ones |
| UsageLedger.DaysStartAtMidnight | packages/metering/src/projector.ts:25-43 | Every stored daily aggregate starts at midnight |
| UsageLedger.LabelsAreFirst | packages/metering/src/projector.ts:125-147 | An aggregate carries the labels of the first event of its key |
| UsageLedger.LabelsIgnoreOrderIff | packages/metering/src/projector.ts:45-55 | The aggregate of a key, labels included, is the same for every order of the events iff no two events with different labels share the key |
| MeteringService.UsageMeteringService.RecordRequestStarted | packages/metering/src/metering-service.ts:47-100 | Stores a new request as pending, without attempts or usage; a second start returns the first |
| MeteringService.UsageMeteringService.RecordAttemptStarted | packages/metering/src/metering-service.ts:105-138 | Stores an open attempt without usage |
| MeteringService.UsageMeteringService.AppendAttemptUsageEvents | packages/metering/src/metering-service.ts:310-354 | Appends the events of an attempt, one for each kind of usage that is positive |
| MeteringService.UsageMeteringService.RecordAttemptCompleted | packages/metering/src/metering-service.ts:143-197 | Attempts and ledger change as the specified step; throws iff the attempt is unknown |
| MeteringService.UsageMeteringService.RecordAttemptFailed | packages/metering/src/metering-service.ts:202-254 | The same for a failed attempt, recorded only if input or output was used |
| MeteringService.UsageMeteringService.RecordAttemptCancelled | packages/metering/src/metering-service.ts:259-305 | The same for a cancelled attempt |
| MeteringService.UsageMeteringService.RecordRequestCompleted | packages/metering/src/metering-service.ts:359-503 | Throws iff the request is unknown; otherwise finalizes it as specified |
| MeteringService.UsageMeteringService.CountTransitions | packages/metering/src/metering-service.ts:380-395 | Each attempt after the first is counted as a retry or as a fallback |
| MeteringService.UsageMeteringService.AddUp | packages/metering/src/metering-service.ts:416-466 | The loop sums the consumption of all attempts and derives its quality |
| MeteringService.FinalAttemptMeans | packages/metering/src/metering-service.ts:397-403 | The final attempt is the first that was named, or else completed; failing that, the last |
| MeteringService.IncompleteMeans | packages/metering/src/metering-service.ts:423-453 | Metering is incomplete iff some usage is unavailable and none was reported or estimated |
| MeteringService.CloseKeepsBooksIff | packages/metering/src/metering-service.ts:143-354 | Closing an attempt for the first time keeps the ledger equal to the attempts' usage iff the usage is zero, or not negative and booked to the attempt's own request, already started |
| MeteringService.RunKeepsBooks | packages/metering/src/metering-service.ts:47-503 | Over any run of such steps the ledger holds, for every request, the input and output of its attempts |
| MeteringService.ConsumptionMatchesLedger | packages/metering/src/metering-service.ts:359-503 | Finishing a request computes a consumption equal to what the ledger holds for it, and retries plus fallbacks are the attempts less one |
| MeteringService.CloseBalances | packages/metering/src/metering-service.ts:143-354 | Closing an attempt, for the first time or again, keeps the ledger equal to the attempts' usage iff the ledger takes up what the record changes by, of input and of output |
| MeteringService.ClosingAgain | packages/metering/src/metering-service.ts:143-354 | Closing again keeps the books iff input and output stay the same, if both are in the ledger; after a close without usage, iff the usage is bookable as for a first close |
| MeteringService.CompletingTwice | packages/metering/src/metering-service.ts:143-354 | Completing twice with different input parts the books |
| MeteringService.CompletedTwice | packages/metering/src/metering-service.ts:143-354 | Such a run: a request, an attempt, completed with 5 and again with 7 |
| MeteringService.UsageKeysAreUnique | packages/metering/src/metering-service.ts:340-340 | No other usage has the idempotency key of an attempt's usage iff the ids of the attempt and its request have no colon |
| MeteringService.UnstartedRequest | packages/metering/src/metering-service.ts:143-197 | An attempt that completes although its request was not started is not in the books |
| MeteringService.ReconcileConserves | packages/metering/src/metering-service.ts:618-682 | Reconciling moves ledger and logical usage by the same amount iff the adjustment is not taken for a repetition |
| MeteringService.ReconcilingTwice | packages/metering/src/metering-service.ts:618-682 | Of two corrections by the same difference in one millisecond the ledger takes up one |
| MeteringService.ReconciledTwice | packages/metering/src/metering-service.ts:618-682 | Such a run: a started request, corrected to 5 and then to 10 |
| BatchPlanner.EstimateInputTokens | packages/embeddings/src/input-validator.ts:3-9 | The estimate is the least number that allows one token for every four characters, for every word, and for a text that is not empty |
| BatchPlanner.WordsApart | packages/embeddings/src/input-validator.ts:7-7 | White space separates words |
| BatchPlanner.OneWord | packages/embeddings/src/input-validator.ts:7-7 | A text without white space is one word, unless it is empty |
| BatchPlanner.MakePlan | packages/embeddings/src/batch-planner.ts:5-62 | The loop computes the specified plan |
| BatchPlanner.PlanKeepsInputs | packages/embeddings/src/batch-planner.ts:17-54 | The chunks concatenate to the inputs, are numbered in order, and say where their inputs stand |
| BatchPlanner.PlanFits | packages/embeddings/src/batch-planner.ts:22-43 | With room for an input, every chunk has some and keeps to both limits, unless a single input is too heavy by itself |
| BatchPlanner.EmptyChunks | packages/embeddings/src/batch-planner.ts:22-34 | Some chunk is empty iff there are inputs but the size limit is not positive |
| BatchPlanner.PlanIsPartition | packages/embeddings/src/batch-planner.ts:5-62 | The plan is a contiguous partition within the limits |
| BatchPlanner.PlanIsOptimal | packages/embeddings/src/batch-planner.ts:5-62 | No contiguous partition within the limits has fewer parts than the plan has chunks |
| PriceResolver.CalculateSpecificityScore | packages/pricing/src/provider-price-resolver.ts:133-199 | Zero iff the schedule asks for what the caller does not meet; otherwise 100 and the weights of what it names that the caller named too |
| PriceResolver.ScoreIsLexicographic | packages/pricing/src/provider-price-resolver.ts:133-199 | A score is zero iff the schedule does not match, and otherwise orders schedules lexicographically by route, credential, provider model, region, canonical model |
| PriceResolver.ResolvesMostSpecific | packages/pricing/src/provider-price-resolver.ts:60-131 | Resolution yields the named schedule if it has the named version, or else the one most specific effective match; nothing if there is none; and throws iff none was named and some match but none is the most specific |
| PriceResolver.ResolutionIgnoresOrder | packages/pricing/src/provider-price-resolver.ts:60-131 | The order in which schedules were added does not matter, whether or not one is named |
| PriceResolver.AnotherModelResolves | packages/pricing/src/provider-price-resolver.ts:185-193 | A schedule for another canonical model than the caller's is resolved iff it matches otherwise and outranks all other matches, those for the caller's own model included, by route, credential, provider model or region; or if it is the one named |
| PriceResolver.AnotherModelPreferred | packages/pricing/src/provider-price-resolver.ts:170-193 | A call in a region is priced by the region's schedule for another model, although there is one for its own |
| PriceResolver.ProviderPriceResolver.ResolveSchedule | packages/pricing/src/provider-price-resolver.ts:60-131 | Yields the chosen schedule whenever there is one |
| PriceResolver.ProviderPriceResolver.AddSchedule | packages/pricing/src/provider-price-resolver.ts:33-36 | Refuses invalid schedules and then changes nothing; otherwise stores the schedule in place of one with the same id |
| ProviderCost.PriceAttempt | packages/pricing/src/provider-cost-calculator.ts:127-323 | Lines, cost and status of one attempt as specified; fails iff a rate is per zero units |
| ProviderCost.CalculateRequestCost | packages/pricing/src/provider-cost-calculator.ts:56-357 | The loop over the attempts computes the specified cost |
| ProviderCost.Breakdown | packages/pricing/src/provider-cost-calculator.ts:325-344 | Subtotal, retry, fallback and successful cost as sums over the attempts of each kind |
| ProviderCost.WorstStatus | packages/pricing/src/provider-cost-calculator.ts:82-138 | The cost status is the worst status of any attempt |
| ProviderCost.CostAddsUp | packages/pricing/src/provider-cost-calculator.ts:56-357 | The subtotal is the sum of the lines; retry, fallback and successful cost exceed it by exactly the cost of completed fallback attempts |
| ProviderCost.BilledIff | packages/pricing/src/provider-cost-calculator.ts:145-323 | An attempt has a line for a kind of usage iff some was used, a schedule was found and it has a rate for it, which it never has for images or audio |
| ProviderCost.UnbilledUsage | packages/pricing/src/provider-cost-calculator.ts:113-323 | Usage goes unbilled without the status showing it iff input and output that were used have a rate, but images or audio were used, or cached input, reasoning or search calls without a rate; without a schedule nothing has one |
| ProviderCost.ImagesAreFree | packages/pricing/src/provider-cost-calculator.ts:25-34 | An attempt that used only images costs nothing under every schedule, with status exact |
| ProviderCost.SearchWithoutSchedule | packages/pricing/src/provider-cost-calculator.ts:113-125 | Search calls of a provider without a schedule cost nothing, with status exact |

## Left out

- Floating point: latencies are reals that are rounded at once, percentiles use exact arithmetic, ceilings are reals; NaN, infinities and display-only ratios (means, rates, shares) are not modelled.
- JavaScript numbers as decimals: a `Decimal` made from a number goes through the text of the number, which is not modelled; nor are exponents too large for the runtime.
- CanonicalJson.CanonicalIdentifies: strings are sequences of code points, without lone surrogates, and keys are ordered by code point, where JavaScript orders by UTF-16 unit; a number comes with its shortest decimal digits, which the model does not compute from its binary form.
- Text: case folding, trimming and digits are those of ASCII; lengths count code points.
- Rule values: a rule carries the list, text, truth value and number the compiler reads from its value; how JavaScript converts between them is not modelled.
- Version hashes, denial reason texts, descriptions, audit, security and outbox emitters, and `createdAt` or `updatedAt` fields.
- Years 0 to 99, which `Date.UTC` reads as 1900 to 1999, in bucket boundaries.
- Rollup and aggregate keys as text: ids that contain the separator could share a key; the model keeps the parts apart.
- Aliasing of returned policies and versions: creating a policy for a taken scope edits the entity handed out earlier; the model hands out values.
- Single-flight work that calls `run` again for its own key before its first await, and the lease time, which the source does not use.
- Expiry of idempotency records, which the source leaves to the store, and stores whose claim is not atomic.
- UsageLedger.RebuildAggregates: the insertion order of aggregates, which only breaks ties between aggregates with the same bucket start in a limited query, is not modelled.
- MeteringService.ConsumptionMatchesLedger: is about input and output only; total tokens may differ by design, because a provider may report a total of its own.
- CreditLots.AllocationOutcome: is for lots with distinct ids, as the promise is; the method models repeated ids as the source treats them.
- CreditBalance.IntegrityHoldsUnlessLapsed: settlement and release of lots are not part of the files modelled; their ledger entries are in the fold.
- The query service beyond the usage summary: time series, breakdowns and the ranking of models.
- PolicyEngine.CacheStaysCoherent: runs operations one after the other; `PolicyRaces` has their interleavings.
- Retention, deletion, release and benchmark orchestration, storage, provider and payment adapters, rendering, notifications, the customer price calculator and the cost estimator: thin sequencing, text, or near copies of what is modelled.
- `min`, `max` and `sum` of decimals, which nothing modelled here calls; decimals are compared by their raw values.
