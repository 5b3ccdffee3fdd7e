# Redwing dashboard core, in Dafny

A model of the data and access-control core of the Redwing drone-operations dashboard (a
Next.js/TypeScript application), with proofs of what it promises. It covers three parts.

- **The TTL cache** (`RedisCacheService`). It has two tiers: an in-memory map in front of
  localStorage. The model is a class over two maps, with the clock passed in as `now`. The set
  of localStorage calls that throw during a step is an explicit input, `faults`, and every such
  failure is swallowed as in the code. `set`, `get`, `del`, `exists`, `expire`, `ttl`,
  `flushall`, `info` and `cleanup` are methods proved against specification functions on the
  store's value. `hashString` and `generateQueryKey` are proved against the 32-bit hash they
  compute. `withCache` is a method that consults the shared service.
- **The data providers** (Missions, Drones, Sites, Users, Settings, Analytics). Each owns one
  cache key, `entity:organizationId`. The four list providers share one class,
  `EntityContext.CachedCollection`, instantiated per entity. The settings and analytics
  providers are classes of their own. Each class holds the shared cache by reference.
  Network replies are inputs. The list edits (append, replace by id, merge by id, status
  update, delete by id) are pure functions in `EntityLists`.
- **Authorisation and routing.**
  - the role → permission table;
  - the edge middleware;
  - the role-gated middleware and `withAuth`;
  - the server-side guards;
  - the cookie parsing and state transitions of the `useAuth` hook;
  - the sidebar filter and expand toggle;
  - the `AuthGuard` decision.

JSON values are the datatype `Json.Json`, whose objects keep their fields in order. That order
is taken to be the one JavaScript itself gives an object (integer-like keys first, ascending,
then the others in insertion order); for values so ordered, two are `deepEqual` (equal
`JSON.stringify` text) exactly when they are equal. JavaScript's
`undefined` is `None` where the code tells it apart from `null`. JWT decoding is an oracle from
the token text to an optional `exp`.

Cross-entity invalidation writes `null` under the other key with `set`, so the key keeps an
entry holding null that reads as absent; see `EntityContext.MutationForcesDependentFetch`.

## Model

| member | source | states |
|---|---|---|
| RedisCache.Sweep | src/utils/redis-cache.ts:144-162 | `cleanup` keeps exactly the live memory entries, unchanged, and removes from localStorage only the expired memory keys whose removal did not throw |
| RedisCache.Put | src/utils/redis-cache.ts:24-45 | `set` stores the item in memory, and in localStorage unless that write throws; other live entries are untouched; the result is the written store while memory holds at most 100 items, and the sweep of it above that |
| RedisCache.Lookup | src/utils/redis-cache.ts:48-74 | `get` returns only data of an unexpired item; a live memory item wins; otherwise a live persisted item is promoted into memory; an expired persisted item is removed and reads as null; a throwing `getItem`, an absent key or unreadable text reads as null and changes nothing; no other key's entry changes in either tier |
| RedisCache.Remove | src/utils/redis-cache.ts:77-84 | `del` removes the key from memory, and from localStorage unless the removal throws; no other key changes |
| RedisCache.Flush | src/utils/redis-cache.ts:114-121 | `flushall` empties memory, and localStorage unless `clear` throws |
| RedisCache.Expire | src/utils/redis-cache.ts:93-101 | `expire` succeeds iff the key is in the memory tier; it then resets ttl and timestamp, and otherwise changes nothing |
| RedisCache.Remaining | src/utils/redis-cache.ts:104-111 | `ttl` is -1 exactly for a key missing from memory, 0 once expired, else the time left |
| RedisCache.Statistics | src/utils/redis-cache.ts:124-141 | `info` reports the memory size twice, and localStorage's length as 0 when reading it throws; its partners are `FlushThenInfo`, `PutThenInfo` and `PromotionThenInfo` |
| RedisCache.SetThenGet | src/utils/redis-cache.ts:24-74 | a value read back within its ttl is the value stored, whatever localStorage did |
| RedisCache.SetThenGetAfterTtl | src/utils/redis-cache.ts:165-167 | expiry is strict: once more than ttl has elapsed, a stored value reads as absent |
| RedisCache.FailedPersistServesOlderValue | src/utils/redis-cache.ts:35-44 | when the localStorage write threw, an older live copy there is served after the memory item expires |
| RedisCache.PromotedReadsFromMemory | src/utils/redis-cache.ts:55-73 | after a `get` that found something, the next `get` is answered by the memory tier alone |
| RedisCache.DelThenGet | src/utils/redis-cache.ts:77-84 | after a `del` whose removal succeeded, the key reads as absent |
| RedisCache.DelWithFailedRemoveServesPersisted | src/utils/redis-cache.ts:77-84 | when the removal throws, the next `get` serves the persisted copy again |
| RedisCache.FlushThenGet | src/utils/redis-cache.ts:114-121 | after a successful `flushall`, every key reads as absent |
| RedisCache.ExpireThenTtl | src/utils/redis-cache.ts:93-111 | `ttl` right after `expire(k, t)` is t, or 0 for a negative t |
| RedisCache.LiveEntriesOutgrowTheCap | src/utils/redis-cache.ts:42-44 | the sweep never removes a live entry, so live entries above the cap all remain |
| RedisCache.PutSweepsOnlyAboveCap | src/utils/redis-cache.ts:40-44 | an expired entry of another key survives a `set` that leaves at most 100 items in memory; above that it leaves memory, and leaves localStorage unless its removal throws |
| RedisCache.FlushThenInfo | src/utils/redis-cache.ts:114-141 | after a successful `flushall`, `info` reports zero everywhere |
| RedisCache.PutThenInfo | src/utils/redis-cache.ts:24-141 | a `set` of a new key within the cap grows both reported sizes by one |
| RedisCache.PromotionThenInfo | src/utils/redis-cache.ts:48-141 | a `get` served from localStorage grows the reported memory size by one |
| RedisCache.MemoryTierIgnoresFaults | src/utils/redis-cache.ts:24-121 | every localStorage failure is swallowed: the memory tier never depends on them |
| RedisCache.ReadDependsOnKeyOnly | src/utils/redis-cache.ts:48-74 | a `get` depends only on what the two tiers hold under its key |
| RedisCache.PutKeepsOtherReads | src/utils/redis-cache.ts:24-45 | a `set` leaves what every other live key reads unchanged |
| RedisCache.Memoised | src/utils/redis-cache.ts:191-211 | `fn` runs iff the lookup is null; a hit returns the cached value and only the lookup's promotion changes the cache; a miss returns `fn`'s result, stores nothing when `fn` throws and otherwise `set`s its result under the key |
| RedisCache.MemoisedSecondCallHits | src/utils/redis-cache.ts:191-211 | after `fn` produced a non-null value, calls within the ttl are served from the cache |
| RedisCache.MemoisedNullRunsAgain | src/utils/redis-cache.ts:191-211 | a null result is never served from the cache: every call runs `fn` again |
| RedisCache.RedisCacheService.constructor | src/utils/redis-cache.ts:10-21 | the singleton starts with an empty memory tier over whatever localStorage holds |
| RedisCache.RedisCacheService.Set | src/utils/redis-cache.ts:24-45 | the new state is `Put` of the old one |
| RedisCache.RedisCacheService.Get | src/utils/redis-cache.ts:48-74 | returns the value and leaves the state that `Lookup` gives |
| RedisCache.RedisCacheService.Del | src/utils/redis-cache.ts:77-84 | the new state is `Remove` of the old one |
| RedisCache.RedisCacheService.Exists | src/utils/redis-cache.ts:87-90 | `exists` is exactly `get(k) !== null`, so a stored null reads as absent; it has the side effects of that `get` |
| RedisCache.RedisCacheService.ExpireKey | src/utils/redis-cache.ts:93-101 | the result and new state are those of `Expire` |
| RedisCache.RedisCacheService.Ttl | src/utils/redis-cache.ts:104-111 | returns `Remaining` and changes nothing |
| RedisCache.RedisCacheService.FlushAll | src/utils/redis-cache.ts:114-121 | the new state is `Flush` of the old one |
| RedisCache.RedisCacheService.GetInfo | src/utils/redis-cache.ts:124-141 | returns `Statistics` and changes nothing |
| RedisCache.RedisCacheService.Cleanup | src/utils/redis-cache.ts:144-162 | the collect-then-delete loops leave exactly `Sweep` of the old state |
| RedisCache.WithCache | src/utils/redis-cache.ts:191-211 | the call and the shared cache's new state are those of `Memoised` |
| QueryKey.ToInt32 | src/utils/redis-cache.ts:177-185 | `hash & hash` is the 32-bit two's-complement value congruent to the input |
| QueryKey.ShiftStep | src/utils/redis-cache.ts:181-182 | one shift-and-subtract step, wrapped, is one step of `31*h + c`, wrapped |
| QueryKey.Utf16OfBmp | src/utils/redis-cache.ts:180 | outside the supplementary planes, `charCodeAt` is the code point |
| QueryKey.HashIsWrappedPolynomial | src/utils/redis-cache.ts:177-185 | wrapping at every step equals wrapping the polynomial hash once |
| QueryKey.Base36RoundTrip | src/utils/redis-cache.ts:184 | `toString(36)` loses nothing: reading its digits back gives the number |
| QueryKey.HashShape | src/utils/redis-cache.ts:177-185 | every hash is one to six base-36 digits whose value is the absolute 32-bit hash |
| QueryKey.HashString | src/utils/redis-cache.ts:177-185 | the loop computes `Hash` |
| QueryKey.GenerateQueryKey | src/utils/redis-cache.ts:170-174 | the key is `gql:` + hash of the query + `:` + hash of the variables' JSON |
| QueryKey.ParseKeyOf | src/utils/redis-cache.ts:170-174 | a query key gives back both hashes it was built from |
| QueryKey.KeyOfInjective | src/utils/redis-cache.ts:170-174 | two calls share a key exactly when both of their hashes agree |
| Json.Assign | src/features/data/SettingsContext.tsx:109-115 | `{ ...o, [k]: v }` reads v at k and what `o` held at every other key |
| Json.Spread | src/features/data/SettingsContext.tsx:126-132 | `{ ...a, ...b }` reads b's value where b has the key, else a's |
| Json.OrElse | src/features/data/AnalyticsContext.tsx:139-143 | `x \|\| fallback` is x when x is truthy, else the fallback |
| DataKeys.CacheKeyInjective | src/features/data/MissionsContext.tsx:76 | two providers, or one provider in two organisations, never share a cache key |
| DataKeys.CacheKeyParts | src/features/data/MissionsContext.tsx:76 | the key splits at its first colon into the provider's name and the organisation |
| EntityLists.Append | src/features/data/MissionsContext.tsx:131-133 | the created item goes last; the rest is the old list, null read as empty |
| EntityLists.ReplaceById | src/features/data/MissionsContext.tsx:150-154 | every element with the id becomes the reply, wholesale; the others and the length are unchanged |
| EntityLists.Merge | src/features/data/MissionsContext.tsx:189-193 | `{ ...x, ...patch }` reads the patch's fields where it has them, x's elsewhere |
| EntityLists.MergeById | src/features/data/MissionsContext.tsx:189-193 | matching missions are merged with the reply; non-matching ones are untouched |
| EntityLists.WithStatus | src/features/data/DronesContext.tsx:150-154 | only `status` changes; every other field is kept |
| EntityLists.SetStatusById | src/features/data/DronesContext.tsx:150-154 | matching drones get the reply's status; other drones are untouched |
| EntityLists.RemoveById | src/features/data/MissionsContext.tsx:171-172 | the result keeps the order of the others, and holds exactly the elements without that id |
| EntityLists.ReplaceByIdIdempotent | src/features/data/MissionsContext.tsx:150-154 | replacing twice with a reply carrying the id is replacing once |
| EntityLists.MergeKeepsUnmentioned | src/features/data/MissionsContext.tsx:189-193 | fields the reply does not return are retained |
| EntityLists.MergeKeepsId | src/features/data/MissionsContext.tsx:189-193 | a merge whose reply keeps the id leaves the mission findable by it |
| EntityLists.StatusKeepsId | src/features/data/DronesContext.tsx:150-154 | a status update keeps the drone's id |
| EntityLists.RemoveByIdIdempotent | src/features/data/MissionsContext.tsx:171-172 | deleting twice is deleting once |
| EntityLists.RemoveDistributes | src/features/data/MissionsContext.tsx:171-172 | the filter works element by element over a concatenation |
| EntityLists.DeleteAfterAppend | src/features/data/MissionsContext.tsx:123-179 | deleting what was just created leaves the older list, filtered |
| EntityLists.DeleteAfterReplace | src/features/data/MissionsContext.tsx:142-179 | replacing then deleting an id is deleting it |
| EntityContext.AfterFetch | src/features/data/MissionsContext.tsx:286-303 | a settled load holds the list on success, keeps the list and records the error on failure, and stops loading |
| EntityContext.Load | src/features/data/MissionsContext.tsx:70-100 | nothing before the organisation is known and auth has settled; then a cached array is shown as it is, and otherwise the request settles and a fetched list is written under the key |
| EntityContext.Poll | src/features/data/MissionsContext.tsx:103-121 | a reply whose JSON differs from the held list replaces it and is written under the provider's key; otherwise, or on failure, nothing changes |
| EntityContext.Refetch | src/features/data/MissionsContext.tsx:286-325 | `refetch` and `refreshCache` are no-ops without an organisation; otherwise they settle the list from the network, leave the cache as it was when the request fails, and `set` the fetched list under the provider's key when it succeeds |
| EntityContext.Mutate | src/features/data/MissionsContext.tsx:123-284 | an entry point is skipped iff there is no organisation and rethrows iff the request failed, changing nothing in either case; on success the list is the edit applied to the reply |
| EntityContext.LoadPrefersCachedArray | src/features/data/MissionsContext.tsx:76-91 | a cached array is taken as it is, whatever the network says; anything else is fetched and written through |
| EntityContext.LoadThenLoadHitsCache | src/features/data/MissionsContext.tsx:70-100 | a list the initial load fetched on a miss is what the next initial load within the ttl shows |
| EntityContext.RefetchThenLoadHitsCache | src/features/data/MissionsContext.tsx:286-303 | a list written by `refetch` is what the next initial load within the ttl shows |
| EntityContext.PollIsIdempotent | src/features/data/MissionsContext.tsx:103-121 | a second poll with the same reply changes nothing |
| EntityContext.PollThenLoadHitsCache | src/features/data/MissionsContext.tsx:70-121 | a list a poll took in is what the next initial load within the ttl shows |
| EntityContext.MutateThenLoad | src/features/data/MissionsContext.tsx:123-140 | the list a mutation writes is what the next initial load within the ttl shows |
| EntityContext.MutationForcesDependentFetch | src/features/data/MissionsContext.tsx:134 | after a mission (or drone) mutation, the drones (or missions) key reads as absent, so their next load goes to the network |
| EntityContext.MutationKeepsOtherKeys | src/features/data/SitesContext.tsx:95-148 | a mutation changes what no other live key reads, apart from the one dependent key |
| EntityContext.CachedCollection.constructor | src/features/data/MissionsContext.tsx:66-68 | a provider starts with a null list, loading, no error |
| EntityContext.CachedCollection.InitialLoad | src/features/data/MissionsContext.tsx:70-100 | the new provider and cache state are those of `Load` |
| EntityContext.CachedCollection.PollTick | src/features/data/MissionsContext.tsx:103-121 | the new state is that of `Poll` |
| EntityContext.CachedCollection.RefetchList | src/features/data/MissionsContext.tsx:286-325 | the new state is that of `Refetch` |
| EntityContext.CachedCollection.Mutation | src/features/data/MissionsContext.tsx:123-284 | the outcome and new state are those of `Mutate` |
| SettingsContext.CacheRefetch | src/features/data/SettingsContext.tsx:152-169 | `refetch` reads only the cache: it shows a cached object holding `notifications`, else the defaults, which it writes back under `settings:{org}` |
| SettingsContext.Load | src/features/data/SettingsContext.tsx:60-86 | the initial load never uses the network: it is the same read-through once auth has settled |
| SettingsContext.Poll | src/features/data/SettingsContext.tsx:88-104 | a reply whose JSON differs from the held settings replaces them and is written under `settings:{org}`; otherwise nothing changes |
| SettingsContext.UpdateSetting | src/features/data/SettingsContext.tsx:106-121 | overrides exactly that key and writes the result under `settings:{org}`, keeping loading and error; a no-op while the settings are null or without an organisation |
| SettingsContext.UpdateSettings | src/features/data/SettingsContext.tsx:123-138 | keys the partial lacks keep their values, and the result is written under `settings:{org}`; a no-op while the settings are null |
| SettingsContext.Reset | src/features/data/SettingsContext.tsx:140-150 | the state's settings become `defaultSettings`, written under `settings:{org}`, with loading and error kept |
| SettingsContext.Refresh | src/features/data/SettingsContext.tsx:171-190 | `refreshCache` shows the network's settings whatever their shape and writes them under `settings:{org}`; on failure it records the error and keeps the cache |
| SettingsContext.DefaultsAreSettings | src/features/data/SettingsContext.tsx:34-46 | `defaultSettings` passes the cache's shape check |
| SettingsContext.CacheRefetchIsStable | src/features/data/SettingsContext.tsx:152-169 | a second `refetch` within the ttl shows what the first one showed |
| SettingsContext.UpdateSettingThenRefetch | src/features/data/SettingsContext.tsx:106-121 | a changed setting is what `refetch` shows within the ttl |
| SettingsContext.UpdateSettingsThenRefetch | src/features/data/SettingsContext.tsx:123-169 | settings merged by `updateSettings` are what `refetch` shows within the ttl |
| SettingsContext.PollThenRefetch | src/features/data/SettingsContext.tsx:88-169 | after a poll took in a value, `refetch` within the ttl shows it when it holds `notifications`, else the defaults |
| SettingsContext.ResetThenRefetch | src/features/data/SettingsContext.tsx:140-150 | after `resetSettings`, `refetch` within the ttl shows the defaults |
| SettingsContext.RefreshThenRefetch | src/features/data/SettingsContext.tsx:152-190 | settings `refreshCache` brought in are what `refetch` within the ttl shows when they hold `notifications`, else the defaults |
| SettingsContext.PollIsIdempotent | src/features/data/SettingsContext.tsx:88-104 | a second poll with the same reply changes nothing |
| SettingsContext.SettingsStore.constructor | src/features/data/SettingsContext.tsx:56-58 | the provider starts with null settings, loading, no error |
| SettingsContext.SettingsStore.Refetch | src/features/data/SettingsContext.tsx:152-169 | the new state is that of `CacheRefetch` |
| SettingsContext.SettingsStore.InitialLoad | src/features/data/SettingsContext.tsx:60-86 | the new state is that of `Load` |
| SettingsContext.SettingsStore.PollTick | src/features/data/SettingsContext.tsx:88-104 | the new state is that of `Poll` |
| SettingsContext.SettingsStore.SetOne | src/features/data/SettingsContext.tsx:106-121 | the new state is that of `UpdateSetting` |
| SettingsContext.SettingsStore.SetMany | src/features/data/SettingsContext.tsx:123-138 | the new state is that of `UpdateSettings` |
| SettingsContext.SettingsStore.ResetSettings | src/features/data/SettingsContext.tsx:140-150 | the new state is that of `Reset` |
| SettingsContext.SettingsStore.RefreshCache | src/features/data/SettingsContext.tsx:171-190 | the new state is that of `Refresh` |
| AnalyticsContext.Metrics | src/features/data/AnalyticsContext.tsx:144-151 | the `keyMetrics` object holds the four metrics under their names |
| AnalyticsContext.Dashboard | src/features/data/AnalyticsContext.tsx:138-152 | the dashboard object holds the five chart arrays and the key metrics under their names |
| AnalyticsContext.SuccessRate | src/features/data/AnalyticsContext.tsx:146-148 | the success rate is 0 unless `completedMissions > 0` |
| AnalyticsContext.Transform | src/features/data/AnalyticsContext.tsx:134-156 | without real data the result is exactly `mockAnalytics`; with it, missing totals and flight hours read 0; it always passes the cache's shape check |
| AnalyticsContext.ChartFallsBack | src/features/data/AnalyticsContext.tsx:139-143 | with real data each chart independently shows the server's array when truthy, else the mock array |
| AnalyticsContext.Settle | src/features/data/AnalyticsContext.tsx:160-175 | a load that threw shows `mockAnalytics` with the error and writes nothing; otherwise it shows and caches the transformed dashboard |
| AnalyticsContext.Load | src/features/data/AnalyticsContext.tsx:88-177 | nothing before an organisation and auth; then a cached dashboard is shown as it is, and otherwise the queries settle and the dashboard is written through; it always ends with a dashboard and not loading |
| AnalyticsContext.Refetch | src/features/data/AnalyticsContext.tsx:209-275 | `refetch` runs the three queries without the cache and settles like the initial load |
| AnalyticsContext.Refresh | src/features/data/AnalyticsContext.tsx:277-296 | `refreshCache` shows the organisation stats alone and writes them under the key; a failure records the error and keeps the cache |
| AnalyticsContext.Poll | src/features/data/AnalyticsContext.tsx:179-195 | organisation stats whose JSON differs from the held analytics replace them and are written under the key; otherwise nothing changes |
| AnalyticsContext.Update | src/features/data/AnalyticsContext.tsx:197-207 | `updateAnalytics` shows the value unchanged and is a no-op without an organisation |
| AnalyticsContext.RefetchThenLoadHitsCache | src/features/data/AnalyticsContext.tsx:94-99 | a dashboard from the network is accepted from the cache by the next initial load within the ttl |
| AnalyticsContext.UpdateThenLoad | src/features/data/AnalyticsContext.tsx:197-207 | a dashboard given to `updateAnalytics` comes back from the next initial load within the ttl |
| AnalyticsContext.PollThenLoad | src/features/data/AnalyticsContext.tsx:88-195 | what a poll took in is shown by the next initial load within the ttl when it carries `keyMetrics`; otherwise the load queries again |
| AnalyticsContext.LoadThenLoadHitsCache | src/features/data/AnalyticsContext.tsx:88-177 | a dashboard the initial load fetched on a miss is what the next initial load within the ttl shows |
| AnalyticsContext.RefreshThenLoad | src/features/data/AnalyticsContext.tsx:88-296 | stats `refreshCache` brought in are shown by the next initial load within the ttl when they carry `keyMetrics`; otherwise the load queries again |
| AnalyticsContext.PollIsIdempotent | src/features/data/AnalyticsContext.tsx:179-195 | a second poll with the same reply changes nothing |
| AnalyticsContext.AnalyticsStore.constructor | src/features/data/AnalyticsContext.tsx:84-86 | the provider starts with null analytics, loading, no error |
| AnalyticsContext.AnalyticsStore.InitialLoad | src/features/data/AnalyticsContext.tsx:88-177 | the new state is that of `Load` |
| AnalyticsContext.AnalyticsStore.RefetchAll | src/features/data/AnalyticsContext.tsx:209-275 | the new state is that of `Refetch` |
| AnalyticsContext.AnalyticsStore.RefreshCache | src/features/data/AnalyticsContext.tsx:277-296 | the new state is that of `Refresh` |
| AnalyticsContext.AnalyticsStore.PollTick | src/features/data/AnalyticsContext.tsx:179-195 | the new state is that of `Poll` |
| AnalyticsContext.AnalyticsStore.UpdateAnalytics | src/features/data/AnalyticsContext.tsx:197-207 | the new state is that of `Update` |
| Roles.RoleNameRoundTrip | src/constants/roles.ts:2-7 | each of the four role names maps back to its role |
| Roles.RolePermissions | src/constants/roles.ts:9-46 | every role views analytics; the organisation-wide flags belong to SUPER_ADMIN alone; managing users comes with managing drones, missions and sites; drones and sites go together |
| Roles.SuperAdminHasEveryPermission | src/constants/roles.ts:10-18 | `SUPER_ADMIN` has all seven permissions |
| Roles.EveryRoleViewsAnalytics | src/constants/roles.ts:9-46 | every role may view analytics |
| Roles.OnlySuperAdminSpansOrganizations | src/constants/roles.ts:10-45 | only `SUPER_ADMIN` may manage or view all organisations |
| Roles.PermissionsAreNested | src/constants/roles.ts:10-45 | VIEWER ⊆ OPERATOR ⊆ MODERATOR ⊆ SUPER_ADMIN |
| Roles.OperatorManagesOnlyMissions | src/constants/roles.ts:28-36 | an operator manages missions but not users, drones, sites or organisations |
| Token.ValidUntilExpiry | middleware.ts:5-16 | a token is valid iff it is non-empty, decodes, and its `exp` is after the current second |
| Token.ExpiryIsFinal | middleware.ts:5-16 | a token valid at some time was valid at every earlier time |
| EdgeMiddleware.PublicIsNotProtected | middleware.ts:19-50 | no path is both public and protected |
| EdgeMiddleware.MiddlewareAsWritten | middleware.ts:35-77 | with a cookie on a public route it redirects to the dashboard iff the token is valid; without one it redirects to the login page |
| EdgeMiddleware.LoginRedirectsToItself | middleware.ts:53-90 | the matcher lets a request to the login page through to the middleware, which redirects it without a cookie to the login page |
| EdgeMiddleware.Middleware | middleware.ts:35-77 | a request passes iff it is public and has no valid token, or is not public and has one; a tokenless protected request carries `redirect` |
| EdgeMiddleware.MiddlewareDiffersOnlyOnLoop | middleware.ts:53-73 | the corrected decision differs from the code exactly on tokenless public requests |
| EdgeMiddleware.RedirectSettles | middleware.ts:35-77 | following a redirect with the cookie it leaves is never redirected again |
| EdgeMiddleware.Edge | middleware.ts:79-90 | only paths the matcher selects are ever redirected, and those get the middleware's decision |
| EdgeMiddleware.ApiBypassesMiddleware | middleware.ts:79-90 | a tokenless `/api` request reaches its route, though the middleware alone would redirect it |
| EdgeMiddleware.EdgeRedirectSettles | middleware.ts:35-90 | both redirect targets lie inside the matcher, so a followed redirect is not redirected again |
| AuthMiddleware.LookupRole | src/middleware/authMiddleware.ts:30 | the permission lookup knows exactly the four role names |
| AuthMiddleware.CheckGates | src/middleware/authMiddleware.ts:38-60 | a gate either passes, redirects to the dashboard, or throws |
| AuthMiddleware.UnknownRoleThrows | src/middleware/authMiddleware.ts:23-60 | an unknown role on `/users` throws a TypeError |
| AuthMiddleware.AuthMiddlewareAsWritten | src/middleware/authMiddleware.ts:11-62 | the code throws exactly for a non-public, non-admin, gated path with a token and a non-empty role that is neither in the table nor a member of every object |
| AuthMiddleware.DecideThrows | src/middleware/authMiddleware.ts:11-62 | the same characterisation, for the route rule with the table lookup |
| AuthMiddleware.MissingThrowsIffGated | src/middleware/authMiddleware.ts:38-60 | without a permission record the gates throw exactly when some gated prefix matches |
| AuthMiddleware.AuthMiddleware | src/middleware/authMiddleware.ts:11-62 | it never throws; the three public paths pass; a missing token or role redirects to login |
| AuthMiddleware.NeverThrows | src/middleware/authMiddleware.ts:38-60 | with a known permission record no gate throws |
| AuthMiddleware.MissingMatchesNoGate | src/middleware/authMiddleware.ts:38-60 | where the code does not throw for an unknown role, it agrees with a role that has no permissions |
| AuthMiddleware.AuthMiddlewareAgrees | src/middleware/authMiddleware.ts:11-62 | wherever the code does not throw, the corrected middleware gives the same response |
| AuthMiddleware.CheckGatesPasses | src/middleware/authMiddleware.ts:38-60 | a known role passes the gates iff it has the flag of every prefix the path starts with |
| AuthMiddleware.AuthMiddlewareMatchesRoles | src/middleware/authMiddleware.ts:33-62 | a signed-in role reaches a non-public path iff `MayVisit` allows it, else it goes to the dashboard |
| AuthMiddleware.WithAuth | src/middleware/authMiddleware.ts:65-75 | the handler runs iff the middleware passes; otherwise its response is returned |
| ServerAuth.CheckServerAuth | src/utils/server-auth.ts:25-33 | unauthenticated without a cookie; the token is returned iff it is valid |
| ServerAuth.RequireServerAuth | src/utils/server-auth.ts:36-42 | redirects to the login page exactly when not authenticated |
| ServerAuth.RedirectIfAuthenticated | src/utils/server-auth.ts:45-51 | redirects to the dashboard exactly when authenticated |
| ServerAuth.GuardsAreComplementary | src/utils/server-auth.ts:36-51 | exactly one of the two guards redirects |
| UseAuth.Find | src/hooks/useAuth.ts:12-15 | `find` returns a row that starts with the prefix, or none when no row does |
| UseAuth.Cut | src/hooks/useAuth.ts:15 | the part of a value `split('=')[1]` keeps is a prefix of it without `=` |
| UseAuth.GetCookie | src/hooks/useAuth.ts:9-16 | on the server nothing is read; a value read never contains `=` |
| UseAuth.SecondFieldOfRow | src/hooks/useAuth.ts:12-15 | the field extracted from `name=value` is the value cut at its first `=` |
| UseAuth.CutKeepsPlain | src/hooks/useAuth.ts:15 | a value without `=` is read back whole |
| UseAuth.SetCookieLine | src/hooks/useAuth.ts:19-25 | the cookie text starts with `name=value; expires=` |
| UseAuth.GetCookieReadsListing | src/hooks/useAuth.ts:9-16 | reading a jar's listing gives the first value stored under the name, cut at its first `=`; an empty jar gives nothing |
| UseAuth.GetCookieTruncates | src/hooks/useAuth.ts:9-16 | a value containing `=` is cut at its first `=` |
| UseAuth.ExpiryMs | src/hooks/useAuth.ts:19-25 | a cookie set for `days` expires on a whole second, less than a second before `days` have passed |
| UseAuth.FirstValueListed | src/hooks/useAuth.ts:12-15 | in a listing of the jar, the first value under a name is the jar's value, and there is one iff the name is listed |
| UseAuth.TokenCookie | src/hooks/useAuth.ts:134 | `getCookie('auth-token')` finds something only with a window and a live token cookie |
| UseAuth.TokenCookieReadsDocument | src/hooks/useAuth.ts:9-16 | `TokenCookie` is what `getCookie` finds in any `document.cookie` listing of the live cookies |
| UseAuth.Initial | src/hooks/useAuth.ts:60-63 | the hook starts loading, not yet on the client, with no user |
| UseAuth.DropToken | src/hooks/useAuth.ts:28-32 | `removeCookie` deletes the token cookie when there is a window, else does nothing |
| UseAuth.AfterMount | src/hooks/useAuth.ts:66-68 | mounting marks the hook as on the client |
| UseAuth.AfterMeCompleted | src/hooks/useAuth.ts:72-82 | with `data.me` the user is held with a valid token; without it the user, the flag and the cookie are cleared |
| UseAuth.AfterMeFailed | src/hooks/useAuth.ts:83-89 | a failed ME query clears the user, the flag and the cookie |
| UseAuth.AfterLogin | src/hooks/useAuth.ts:96-120 | success iff `data.login` came back: the token is stored in a cookie expiring 7 days on and the user held; failure changes nothing and carries a non-empty message |
| UseAuth.AfterLogout | src/hooks/useAuth.ts:122-129 | `logout` removes the cookie, clears the user and the flag, and navigates to the login page |
| UseAuth.AfterCheckAuth | src/hooks/useAuth.ts:131-162 | only a live, valid cookie keeps the session signed in; every other branch ends signed out; an invalid cookie is removed; loading ends |
| UseAuth.LoginThenCheckAuth | src/hooks/useAuth.ts:96-162 | the cookie `login` writes is the one `checkAuth` reads, so a login whose token and cookie are both still valid stays signed in |
| UseAuth.LoginExpires | src/hooks/useAuth.ts:19-25 | once the 7-day cookie has expired, `checkAuth` signs out whatever the token says |
| UseAuth.LoginCookieReadsCut | src/hooks/useAuth.ts:9-25 | within its life, the login cookie reads back as the token cut at its first `=` |
| UseAuth.LogoutThenCheckAuth | src/hooks/useAuth.ts:122-162 | after `logout`, `checkAuth` stays signed out |
| UseAuth.ExposedLoading | src/hooks/useAuth.ts:182 | the hook reports not loading only when nothing is loading and it is on the client; its partners are `LoadingUntilChecked` and the two `AuthGuard` lemmas |
| UseAuth.LoadingUntilChecked | src/hooks/useAuth.ts:60-182 | the hook reports loading from the first render until `checkAuth` has run on the client, then only while a query or mutation is in flight |
| UseAuth.CheckAuthBeforeMountStillLoading | src/hooks/useAuth.ts:131-182 | `checkAuth` before the mount effect leaves the hook loading |
| UseAuth.AuthSession.constructor | src/hooks/useAuth.ts:60-63 | the state is `Initial` |
| UseAuth.AuthSession.RemoveCookie | src/hooks/useAuth.ts:28-32 | the new state is `DropToken` |
| UseAuth.AuthSession.Mount | src/hooks/useAuth.ts:66-68 | the new state is `AfterMount` |
| UseAuth.AuthSession.OnMeCompleted | src/hooks/useAuth.ts:72-82 | the new state is `AfterMeCompleted` |
| UseAuth.AuthSession.OnMeError | src/hooks/useAuth.ts:83-89 | the new state is `AfterMeFailed` |
| UseAuth.AuthSession.Login | src/hooks/useAuth.ts:96-120 | the result and new state are those of `AfterLogin` |
| UseAuth.AuthSession.Logout | src/hooks/useAuth.ts:122-129 | the navigation and new state are those of `AfterLogout` |
| UseAuth.AuthSession.CheckAuth | src/hooks/useAuth.ts:131-162 | the new state is `AfterCheckAuth` |
| Sidebar.FilteredMenu | src/components/shared/Sidebar.tsx:107-122 | the menu is a subsequence of the entries, holding exactly those `hasPermission` allows |
| Sidebar.SignedOutSeesNothing | src/components/shared/Sidebar.tsx:108 | without a user the menu is empty |
| Sidebar.DashboardAndSettingsAlwaysShown | src/components/shared/Sidebar.tsx:58-105 | every signed-in role sees Dashboard and Settings |
| Sidebar.MenuMatchesRouteRules | src/components/shared/Sidebar.tsx:58-120 | a role sees a menu entry iff the role-gated middleware lets it follow that link |
| Sidebar.Without | src/components/shared/Sidebar.tsx:52-53 | every occurrence of the title is removed and the rest keep their order |
| Sidebar.ToggleExpanded | src/components/shared/Sidebar.tsx:50-56 | a present title is removed, an absent one appended; no other title changes |
| Sidebar.ToggleTwiceRestores | src/components/shared/Sidebar.tsx:50-56 | toggling an absent title twice restores the list |
| AuthGuard.Navigation | src/components/auth/AuthGuard.tsx:22-32 | no navigation while loading or off the client; `redirectTo` when auth is required and missing; the dashboard when a user is where none is wanted |
| AuthGuard.Render | src/components/auth/AuthGuard.tsx:35-54 | the spinner exactly while loading or off the client |
| AuthGuard.RenderMatchesNavigation | src/components/auth/AuthGuard.tsx:22-54 | the spinner never navigates; nothing is rendered exactly when a navigation is issued; children appear exactly when the settled auth state matches `requireAuth` |
| AuthGuard.GuardWaitsForSession | src/components/auth/AuthGuard.tsx:19-40 | while the hook reports loading, the guard shows the spinner and never navigates |
| AuthGuard.GuardRedirectsWithoutCookie | src/components/auth/AuthGuard.tsx:19-54 | with no live token cookie, once mounted and checked, a guard requiring sign-in navigates to `redirectTo` and renders nothing |

## Left out

- Rendering, icons, toasts and `console` logging: they change no state that the model keeps.
- `cacheMiddleware` in `src/utils/redis-cache.ts`: it inspects Apollo operation objects, whose library is not part of this model.
- Timers and concurrency: `setInterval`, the `isMounted` guards and the order in which awaited calls complete. Each operation is one atomic step, and a poll tick is one call with its reply as an input.
- The stale-closure reads of React state: each step reads the provider's current state.
- `JSON.stringify` of a query's variables: `GenerateQueryKey` takes the JSON text as a parameter.
- JWT decoding (`atob` and `JSON.parse`): an oracle from the token text to an optional `exp`.
- `Date.now()`: the clock is a parameter. `toUTCString` is a parameter of `SetCookieLine`.
- RedisCache.Lookup: text in localStorage that does not parse as a `CacheItem` reads as null. In the code, JSON that parses to some other value is compared through NaN, passes as unexpired, and its `data` property (often `undefined`) is served and promoted into memory; JavaScript's property reads and coercions on foreign values are not modelled.
- UseAuth.AfterLogin: a token containing `;` is stored whole; a browser would end the cookie's value at the `;`. The `Secure` attribute, which makes browsers refuse the cookie on plain-HTTP pages, is not modelled either.
- UseAuth.LoginThenCheckAuth: requires a token without `=`, as JWTs in base64url have; other tokens are read back cut (`LoginCookieReadsCut`).
- `Token.IsTokenValid`, `Roles.Allows` and `AnalyticsContext.HasRealData` are definitions without a contract of their own: their meaning is stated by `Token.ValidUntilExpiry`, the `Roles` lemmas and `AnalyticsContext.Transform`.
- The three copies of `isTokenValid` (`middleware.ts`, `src/utils/server-auth.ts`, `src/hooks/useAuth.ts`) are one definition, `Token.IsTokenValid`, because their bodies are the same.
- localStorage: a map whose calls may throw, one chosen set of throwing calls per step. Quota limits and other tabs are not modelled.
- AnalyticsContext.SuccessRate: uses exact real division instead of IEEE doubles. For a count that is not a number it gives null instead of NaN.
- AnalyticsContext.Transform: `completedMissions > 0` is taken as false for values that are not numbers. JavaScript's coercion of strings and booleans is not modelled.
- AnalyticsContext.Poll: models only a reply that carries `organizationStats`. A reply whose `data` is missing is not modelled.
- EntityContext.Load: the network's list reply is assumed to be a list.
- EntityLists.WithStatus: a reply of `null` to `updateDroneStatus` makes the code throw a TypeError after the request succeeded. The model reads a missing status instead.
- Json.Spread: spreading a value that is not an object adds no fields. The character-by-character spread of strings is not modelled.
- Sidebar.HasPermission: a role outside the four is not modelled, because the role comes from the typed user record.
- UseAuth.AfterCheckAuth: whether the refetch of the ME query threw is an input. Its effect on the user arrives through `AfterMeCompleted` and `AfterMeFailed`.
- The expanded-items state of the sidebar is only replaced with `ToggleExpanded`'s result, so it has no class of its own.

## Findings

| source | as written | input that shows it | evidently intended | confidence | as-written member | corrected member |
|---|---|---|---|---|---|---|
| middleware.ts:53-73 | a request with no cookie to a public route skips the public branch and reaches the final check, which redirects to `/auth/login` | `GET /auth/login` with no `auth-token` cookie is redirected to `/auth/login`, every time | public routes pass without a token, so that a signed-out user can reach the login page | high; not executed | EdgeMiddleware.MiddlewareAsWritten (shown by EdgeMiddleware.LoginRedirectsToItself) | EdgeMiddleware.Middleware (EdgeMiddleware.RedirectSettles, EdgeMiddleware.MiddlewareDiffersOnlyOnLoop) |
| src/middleware/authMiddleware.ts:23-60 | `ROLE_PERMISSIONS[userRole]` is undefined for a role name outside the table, and the gates read a flag of it | a token and `user-role=GUEST`, path `/users` | an unknown role has no permissions and is sent to `/dashboard` | high; not executed | AuthMiddleware.AuthMiddlewareAsWritten (shown by AuthMiddleware.UnknownRoleThrows) | AuthMiddleware.AuthMiddleware (AuthMiddleware.NeverThrows, AuthMiddleware.AuthMiddlewareAgrees, AuthMiddleware.AuthMiddlewareMatchesRoles) |
