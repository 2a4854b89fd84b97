# Azure DevOps permissions explorer: graph resolver and response cache

This project models the core of `app.py` in the Azure DevOps permissions explorer.
That core has four parts:

- **The response cache** (`cache` decorator). Each call is keyed by the function name, its positional arguments and its keyword arguments. A fresh entry is answered from the store. A stale one is deleted, and then the function runs and its result is stored.
- **The cached API** (`DevopsCachedApi`). There is one cached method per endpoint, each with a timeout of 30 days. Every method goes through `_get_request`, which has its own cache with a timeout of one hour.
- **The browser** (`DevopsBrowser`), which holds:
  - lazily built indices of namespaces, groups and users;
  - the merged lookup table of groups and users, and its load counter;
  - the not-found guards;
  - the sorted projections, including the filter that keeps only interactive-login users;
  - connection resolution;
  - the depth-first closure of `get_related_entities`, which sorts what it finds into a users bucket and a groups bucket.
- **The entities** (`DevopsSecurityNamespace`, `DevopsGroup`, `DevopsUser`):
  - their ordering by name;
  - their lazily loaded `members`/`memberships` slots (`DevopsEntity`).

## How the model is organised

One Dafny module per concern:

| module | what it holds |
|---|---|
| `Wrappers` | `Option`, `Result` and the error cases that stand in for Python's exceptions |
| `Json` | decoded JSON values, `unpack`, and checked field reads |
| `StringOrder` | Python's `<` on `str`, and its order lemmas |
| `Entities` | the entity variants, record parsing, index building, sorting and the user filter |
| `ResponseCache` | the store as a class with `Fetch`/`Put`/`Call` |
| `RemoteApi` | the remote service as a fixed oracle, and `DevopsCachedApi` |
| `Closure` | the traversal of `get_related_entities`, stated over any connection function |
| `Resolver` | `DevopsBrowser` |
| `LazyEntities` | the lazy connection slots of `DevopsEntity` |

The remote service is a value, `Remote`. It holds:

- the three collection responses;
- each descriptor's membership responses in both directions;
- a default answer for every other request.

A `CachedApi` is valid when its store is *coherent*: every entry whose key is the signature of one of the cached methods holds what the service answers for that call. The two cache layers keep this invariant. So every method returns exactly what the service answers, whether the call hits the cache or not. Each method's contract also states what happens to the store.

The browser's invariant (`Browser.Valid`) states the following:

- Every loaded index is the index of the remote collection.
- `lookupLoaded` counts the loaded group and user indices, so it never exceeds 2.
- The lookup table is the merge of the loaded indices, in the order they were loaded.

A ghost field `usersFirst` records that order. `dict` merging (`{**lookup_table, **index}`) lets the index merged last win on a shared descriptor:

- `lookup` loads groups and then users, so users win.
- When `get_users`/`get_user` ran before any group load, groups win.

`SharedDescriptorPrecedence` shows both outcomes on a concrete service.

`get_related_entities` has no visited set. The traversal therefore takes a ghost rank per relation, as a precondition: a map from descriptors to naturals that strictly decreases along every edge. The rank is the termination measure. On a cyclic graph `app.py` recurses until Python's recursion limit.

## Model

| member | source | states |
|---|---|---|
| Json.Unpack | app.py:65-66 | An object with a `count` key yields its `value` field, or a missing-key error when that is absent. Any other value is returned unchanged. |
| Json.UnpackNormalises | app.py:65-66 | A bare list and its `{count, value}` envelope unpack to the same list. |
| StringOrder.Less | app.py:58-59 | Computes Python's `<` on `str`: the first differing code point decides, and a proper prefix is below the longer string. |
| StringOrder.LessIrreflexive | app.py:58-59 | No name is below itself. |
| StringOrder.LessAsymmetric | app.py:58-59 | Two names are never each below the other. |
| StringOrder.LessTotal | app.py:58-59 | Of two different names, one is below the other. |
| StringOrder.LessTransitive | app.py:58-59 | The name order is transitive. |
| StringOrder.AtMostTransitive | app.py:58-59 | The non-strict name order is transitive. |
| Entities.ParseRecord | app.py:263-292 | Reading a record succeeds exactly when it is an object with every field the constructor reads, and its key and name are strings. The entity is then of the requested kind, filed under its key, and carries the record's fields. |
| Entities.BuildIndex | app.py:156-161 | Building the index succeeds exactly when every record is well-formed. The index's keys are the accumulated keys plus the keys the records carry. |
| Entities.LastRecordWins | app.py:177-180 | A record whose key no later record repeats is the entry filed under that key. |
| Entities.BuildKeepsAbsent | app.py:177-180 | A key that no record carries keeps its earlier entry. |
| Entities.BuildIsIndex | app.py:199-203 | Every entry is an entity of the kind, filed under its own key. |
| Entities.Before | app.py:58-59 | Computes `DevopsEntity.__lt__`: one entity is below another exactly when its name is below the other's. |
| Entities.Insert | app.py:58-59 | Inserting into a name-sorted list keeps it sorted and adds exactly that entity. |
| Entities.SortByName | app.py:172 | The result is sorted by name and is a permutation of the input. |
| Entities.ValuesAt | app.py:195 | Projecting a mapping along a key list gives, position by position, the entries of those keys. |
| Entities.Enumerate | app.py:172 | A dict iteration lists every key of the mapping exactly once. |
| Entities.ValuesAtCount | app.py:195 | Projecting a mapping keyed by its entities' own keys along distinct keys gives an entity once when its key is listed, and not at all otherwise. |
| Entities.EachValueOnce | app.py:195 | Listing such a mapping in an iteration order gives each of its entities exactly once. |
| Entities.Interactive | app.py:219 | An entity is kept exactly when it is a user whose domain is `Windows Live ID`. Each kept entity occurs as often as in the input, and every other entity not at all. |
| ResponseCache.IsFresh | app.py:101-102 | Computes the cache test: an entry exists under the key and its modification time is later than `now - timeout`. |
| ResponseCache.FreshWindow | app.py:101 | An entry written at time t is fresh at `now` exactly when `now - t < timeout`. |
| ResponseCache.Cache.Fetch | app.py:100-106 | A fresh entry is returned and the store is unchanged. Otherwise nothing is returned, and only that key is removed. |
| ResponseCache.Cache.Put | app.py:108-111 | The key now maps to the value, stamped with `now`. Every other key is unchanged. |
| ResponseCache.Cache.Call | app.py:93-113 | The producer is used exactly when no fresh entry exists. A hit returns the stored value with the store unchanged. A miss returns the produced value and stores it under that key alone. |
| RemoteApi.MembershipArgs | app.py:325-331 | A membership argument dict names exactly one descriptor, and only the dict built for that descriptor and direction does. |
| RemoteApi.StoreExpected | app.py:108-111 | Writing the service's answer, or deleting an entry, keeps the store coherent with the service. |
| RemoteApi.AfterMiss | app.py:97-111 | Computes the store after an endpoint miss: the stale endpoint entry is removed, the nested `_get_request` writes its answer unless its own entry is fresh, and the endpoint stores the answer under its key. |
| RemoteApi.MissWritesTwoKeys | app.py:97-111 | The store a miss leaves differs from the old one only at the method's key and its request key. The method's key then holds the answer and stays fresh for 30 days; the request key holds the answer when it was stale. |
| RemoteApi.TouchesChain | app.py:97-111 | Two calls that each change only their own keys together change only the union of those keys. |
| RemoteApi.CachedApi.constructor | app.py:297-299 | An API over a coherent store is valid. |
| RemoteApi.CachedApi.GetRequest | app.py:301-311 | `_get_request` answers what the service answers for the URL and arguments, on a hit or a miss, with a timeout of one hour. A fresh entry leaves the store unchanged. |
| RemoteApi.CachedApi.Endpoint | app.py:97-111 | An endpoint method answers what the service answers, with a timeout of 30 days, and keeps the store coherent. A fresh entry leaves the store unchanged. A miss leaves the store as `AfterMiss` gives it: the method's key holds the answer stamped `now`, and the `_get_request` key is rewritten only when it too was stale. No other key changes. |
| RemoteApi.CachedApi.GetNamespaces | app.py:313-315 | `get_namespaces` answers the namespaces collection. A hit leaves the store unchanged, a miss writes as `AfterMiss` gives it, and only its own key and its request key can change. |
| RemoteApi.CachedApi.GetGroups | app.py:317-319 | `get_groups` answers the groups collection. A hit leaves the store unchanged, a miss writes as `AfterMiss` gives it, and only its own key and its request key can change. |
| RemoteApi.CachedApi.GetUsers | app.py:321-323 | `get_users` answers the users collection. A hit leaves the store unchanged, a miss writes as `AfterMiss` gives it, and only its own key and its request key can change. |
| RemoteApi.CachedApi.GetEntityMemberships | app.py:325-327 | The answer is the descriptor's containers (direction `Up`). A hit leaves the store unchanged, a miss writes as `AfterMiss` gives it, and only the method's key for that descriptor and its request key can change. |
| RemoteApi.CachedApi.GetEntityMembers | app.py:329-331 | The answer is the descriptor's members (direction `Down`). A hit leaves the store unchanged, a miss writes as `AfterMiss` gives it, and only the method's key for that descriptor and its request key can change. |
| Closure.Visit | app.py:245-254 | Computes `parse_connection(e, rel, tag)` as a trace: the tuple for `e`, then the visits of `e`'s connections along `rel` tagged indirect, depth first. The first failing connection lookup fails the visit. |
| Closure.VisitAll | app.py:253-254 | Computes the `for` loop over one connection list: the visits of its entities in order, or the first failure. |
| Closure.UsersOf | app.py:247-248 | The users bucket gets exactly the tuples whose entity is a user. |
| Closure.GroupsOf | app.py:249-250 | The groups bucket gets exactly the tuples whose entity is a group. |
| Closure.Extend | app.py:247-250 | Computes the appends: the users of a trace go to the users bucket and its groups to the groups bucket, each in trace order. A failed trace fails. |
| Closure.ExtendAppend | app.py:242-250 | Appending a concatenation of tuples to the buckets is the same as appending each half in turn. |
| Closure.ExtendOne | app.py:242-250 | Appending one tuple to the buckets adds it to the users bucket when it is a user, to the groups bucket when it is a group, and nowhere else. |
| Closure.VisitStep | app.py:245-254 | A visit appends its head tuple and then what the visits of its connections append. |
| Closure.VisitAllStep | app.py:253-254 | Visiting a list from position i on fails with the visit of the i-th entity when that fails, and otherwise appends that visit followed by the visits of the rest. |
| Closure.Trace | app.py:256-258 | Computes the closure of a descriptor: the visits of its members tagged direct, then the visits of its memberships tagged direct. A failing connection lookup fails it. |
| Closure.RelatedEntities | app.py:239-260 | Computes `get_related_entities`: the closure sorted into the users and groups buckets. |
| Closure.VisitShape | app.py:245-254 | One visit puts the visited entity first, with its tag. Every tuple below it is indirect. Every tuple carries the visit's relation. Each tuple's connections along that relation appear later. Each tuple is the head or a connection of an earlier tuple. |
| Closure.VisitAllShape | app.py:253-254 | Visiting a list tags exactly the list's entities with the given tag, in order. The trace is closed under the relation, and every tuple is justified. |
| Closure.VisitAllCovers | app.py:253-258 | Every entity of the list appears in the trace with the list's tag. |
| Closure.TraceTagging | app.py:256-258 | The closure is the members trace followed by the memberships trace. Its direct tuples are exactly the first-hop connections, and each trace follows only its own relation. |
| Closure.BucketSizes | app.py:247-250 | Every tuple lands in exactly one bucket. |
| Closure.MembersFirst | app.py:256-258 | Filtering by type keeps the `members` tuples ahead of the `memberships` tuples. |
| Closure.RelatedBuckets | app.py:239-260 | `users` holds only users and `groups` only groups, all taken from the closure. Together the buckets hold exactly as many tuples as the closure. In each bucket, the members tuples come first. |
| Closure.ExampleClosure | app.py:239-260 | User u is in group a, and a is in group b. The closure of u is a (direct membership) then b (indirect membership), both in the groups bucket. |
| Resolver.Index | app.py:156-161 | An index is built exactly when the unpacked response is a list of well-formed records. Its keys are the records' keys, and every entry is filed under its own key. |
| Resolver.LoadAll | app.py:143-152 | The loaded table exists exactly when both indices load, and otherwise fails with the first failure. Its keys are the group and user descriptors, each entry is filed under its descriptor, and the index merged last wins a shared descriptor. |
| Resolver.Merged | app.py:183-206 | Computes the lookup table the loads so far leave: empty, one index, or both, with the index loaded second written over the first (`{**lookup_table, **index}`). |
| Resolver.SharedDescriptorPrecedence | app.py:183-206 | With a group and a user sharing a descriptor, the user wins when groups load first, and the group wins when users load first. |
| Resolver.MergedIsLoadAll | app.py:183-206 | Once both indices are loaded, the merged table is the loaded table. |
| Resolver.ResolveItems | app.py:227-231 | With a loaded table, resolution succeeds exactly when every item has a string descriptor. On a non-empty list it succeeds only when the table loads. An entity is in the result exactly when some item's descriptor resolves to it; descriptors that do not resolve are dropped. |
| Resolver.PositionsAreHits | app.py:227-231 | Every position listed holds an item whose descriptor the table holds. |
| Resolver.PositionsIncrease | app.py:227-231 | The listed positions strictly increase, so each resolving item is listed once, in item order. |
| Resolver.PositionsCoverHits | app.py:227-231 | Every item whose descriptor the table holds is listed. |
| Resolver.ResolveItemsInOrder | app.py:227-231 | A successful resolution has one entity per resolving item, in item order: the k-th entity is the table's entry for the k-th resolving item. Duplicates are kept. |
| Resolver.ConnectionsFrom | app.py:227-237 | Resolution of the unpacked answers succeeds exactly when both are lists and both resolve. Each result is sorted by name and is a permutation of its resolved list. |
| Resolver.ConnectionsOf | app.py:221-237 | An envelope without `value` in the memberships answer fails with that error, before the members answer is read. On success both answers are lists, both results are sorted by name, `memberships` holds exactly the resolved containers and `members` exactly the resolved members. |
| Resolver.ConnectionsOfCounts | app.py:221-237 | Each connection list holds every resolved entity exactly as often as the answer names it: sorting drops nothing. |
| Resolver.LoadUsers | app.py:197-209 | Loading the user index merges it over the table, adds one to the count, and records that users came first exactly when no group index was loaded. |
| Resolver.LoadGroups | app.py:174-185 | Loading the group index merges it over the table and adds one to the count. |
| Resolver.Browser.constructor | app.py:139-141 | A new browser has no index loaded, an empty table and a count of 0. |
| Resolver.Browser.GetNamespaces | app.py:154-162 | The result is the namespace index. It is built on the first call only, and later calls change nothing. Only the namespaces keys of the store can change. |
| Resolver.Browser.GetGroups | app.py:174-185 | The result is the group index. The first load merges it into the table and adds one to the count. Later calls change nothing. Only the groups keys of the store can change. |
| Resolver.Browser.GetUsers | app.py:197-209 | The result is the user index. It is loaded and merged as for groups, and the merge order is recorded. Only the users keys of the store can change. |
| Resolver.Browser.Lookup | app.py:143-152 | Afterwards both indices are loaded and the count is 2. The result is non-null exactly when the descriptor is a group or user descriptor, and it is the table's entity for that descriptor. Only the groups and users keys of the store can change. Indices already loaded stay loaded and unchanged. |
| Resolver.Browser.GetNamespace | app.py:164-168 | The result is the namespace of that name, not found when there is none, or the index's error. The namespace index is loaded as by `get_namespaces`. No other field changes, and only the namespaces keys of the store can change. |
| Resolver.Browser.GetGroup | app.py:187-191 | The result is the group with that descriptor, not found when there is none, or the index's error. A first load merges the group index into the table and adds one to the count. Later calls change nothing. `usersFirst` is unchanged, and only the groups keys of the store can change. |
| Resolver.Browser.GetUser | app.py:211-215 | The result is the user with that descriptor, not found when there is none, or the index's error. A first load merges the user index into the table and adds one to the count, and `usersFirst` becomes true exactly when no group index was loaded yet. Only the users keys of the store can change. |
| Resolver.Browser.GetSortedNamespaces | app.py:170-172 | The result is every namespace, sorted by name, or the index's error. Each namespace occurs exactly once. The state changes as for `get_namespaces`. |
| Resolver.Browser.GetSortedGroups | app.py:193-195 | The result is every group, sorted by name, or the index's error. Each group occurs exactly once. The state changes as for `get_groups`. |
| Resolver.Browser.GetSortedUsers | app.py:217-219 | The result is the `Windows Live ID` users, sorted by name, or the index's error. Each such user occurs exactly once, and no other entity does. The state changes as for `get_users`, including `usersFirst`. |
| Resolver.Browser.ResolveEach | app.py:227-231 | The lookup loop gives exactly the resolution `ResolveItems` specifies. Only the groups and users keys of the store can change. Indices already loaded stay loaded and unchanged. |
| Resolver.Browser.GetEntityConnections | app.py:221-237 | The result is `ConnectionsOf` over the table `lookup` loads. Only the two endpoint keys of the descriptor, their request keys and the groups and users keys can change. When the memberships answer does not unpack, only the memberships keys can change. Indices already loaded stay loaded and unchanged. |
| Resolver.Browser.FetchConnections | app.py:221-223 | The memberships answer is fetched and unpacked first; when it fails, the members endpoint is not called and only the memberships keys can change. Otherwise the members answer is fetched and unpacked, and the pair of lists is returned. |
| Resolver.Browser.ResolveConnections | app.py:227-237 | The result is `ConnectionsFrom` over the table `lookup` loads, and only the groups and users keys can change. Indices already loaded stay loaded and unchanged. |
| Resolver.Browser.VisitOne | app.py:245-254 | `parse_connection` appends to the buckets exactly what `Visit` traces. Indices already loaded stay loaded and unchanged. Every cache key outside the membership, members, groups and users endpoints (and their request keys) keeps its presence and its entry. |
| Resolver.Browser.VisitEach | app.py:253-254 | The `for` loop appends exactly what `VisitAll` traces. Indices already loaded stay loaded and unchanged. Every cache key outside the membership, members, groups and users endpoints (and their request keys) keeps its presence and its entry. |
| Resolver.Browser.GetRelatedEntities | app.py:239-260 | The result is `RelatedEntities` over the browser's connections. Indices already loaded stay loaded and unchanged. Every cache key outside the membership, members, groups and users endpoints (and their request keys) keeps its presence and its entry. |
| LazyEntities.LazyEntity.constructor | app.py:35-38 | Both slots start unloaded. |
| LazyEntities.LazyEntity.LoadConnections | app.py:50-56 | An entity without a descriptor fails. Otherwise both slots are set from one `get_entity_connections` call. The browser's namespace index is unchanged, and its loaded indices stay loaded and unchanged. For an entity with a descriptor, only the cache keys that `get_entity_connections` of that descriptor may write can change. |
| LazyEntities.LazyEntity.GetMembers | app.py:40-43 | A loaded slot is returned without any call. Otherwise the connections are loaded and the members are returned. The browser's namespace index is unchanged, and its loaded indices stay loaded and unchanged. For an entity with a descriptor, only the cache keys that `get_entity_connections` of that descriptor may write can change. |
| LazyEntities.LazyEntity.GetGroups | app.py:45-48 | A loaded slot is returned without any call. Otherwise the connections are loaded and the memberships are returned. The browser's namespace index is unchanged, and its loaded indices stay loaded and unchanged. For an entity with a descriptor, only the cache keys that `get_entity_connections` of that descriptor may write can change. |

## Left out

- **I/O.** The file store, `os.path` calls, `time.time()`, `requests.get` and the token are left out. The store is a map, the clock is a `now` parameter, and the service is the `Remote` value.
- **Time passing.** Time does not pass during one operation: every cache access in it sees the same `now`.
- **Clock resolution.** The clock and the modification times are integers. `time.time()` and `os.path.getmtime` are floats, so a freshness test within the same second can come out differently in `app.py` (app.py:102).
- **Hashing and serialisation.** The MD5 hash and the `json.dumps` serialisation of the cache key are left out. The key is the `(name, args, kwargs)` tuple itself. Keyword arguments are kept as an ordered list, because `json.dumps` keeps dict order: the same keyword arguments passed in another order give a different key.
- **URL formatting and the organization.** URL formatting and the `organization` argument that `_get_request` adds are left out. The cache key omits the organization, so two organizations sharing a cache directory would share entries.
- **JSON round trip.** The JSON round trip of a cached value is taken as the identity. `Json` has integers only; floats are not modelled.
- **Non-list responses.** A collection or membership response that is not a list after `unpack` is an error in the model. Python would iterate a dict's keys or a string's characters, and would succeed only when that is empty.
- **Non-string keys.** The key fields (`name`, `descriptor`, `containerDescriptor`, `memberDescriptor`) and `principalName` must be JSON strings. Python would accept any hashable value there.
- **Dict iteration order.** The indices are maps. Python dicts keep insertion order, and that order decides how `get_sorted_*` orders entities with equal names. `Enumerate` may produce any order, so the position of equal names is not stated.
- **SortByName.** Stability is not stated, only sortedness and permutation.
- **Cyclic graphs.** `Resolver.Browser.GetRelatedEntities` and the `Closure` functions require an acyclic graph along each relation, given as a rank. On a cycle `app.py` recurses until `RecursionError`. Python's recursion limit also stops an acyclic traversal that is deep enough; the model has no depth bound, so such a traversal succeeds here.
- **Lazy slots.** `LazyEntities.LazyEntity` wraps an entity value. Aliasing of `DevopsEntity` objects shared between the indices and the connection lists is not modelled. So a slot loaded through one reference is not seen through another.
- RemoteApi.CachedApi: the service is a fixed value, and the store must start coherent with it (`Coherent`). So every API and browser result is the service's current answer. The case the timeouts exist for is not modelled at this level: a still-fresh entry written before the service changed its answer. Stale answers within the timeout are modelled only by `ResponseCache.Cache.Call`, which returns whatever fresh entry the store holds.
- **Exceptions.** `abort(404)` and `KeyError` become `Err` results.
- **Global browser.** `_load_connections` (app.py:54) reads the module-level `browser`, which app.py:30 sets to `None`. `main()` (app.py:348) binds `browser` as a local variable, since it has no `global` statement, so the module-level name stays `None`. As shipped, `_load_connections` therefore raises `AttributeError`. The model passes the browser as a parameter instead and models the evidently intended behaviour: the call goes to the browser that `main()` builds.
- **Presentation and bootstrapping.**
  - Flask routes, `main()`, `debug`, `to_json`, `to_tuples` and the templates are web presentation.
  - YAML config loading and cache-directory creation are bootstrapping I/O.
  - `static/scripts.js` is UI event handling.
  - The unused URL constants (`GROUP_URL`, `PERMISSION_URL`, `PERMISSIONS_URL`) are not modelled.
