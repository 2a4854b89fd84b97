/** `DevopsCachedApi` (app.py:295-331): one cached method per endpoint over a fixed remote
    service. The HTTP request itself is replaced by `Remote`, the answers the service gives. */
module RemoteApi {
  import opened Wrappers
  import opened Json
  import opened ResponseCache

  const Hour: int := 60 * 60
  const Day: int := 24 * Hour
  /** The timeout of the five endpoint methods (app.py:313-331). */
  const Month: int := 30 * Day

  const NamespacesUrl: string := "https://dev.azure.com/{organization}/_apis/securitynamespaces?api-version=5.0"
  const GroupsUrl: string := "https://vssps.dev.azure.com/{organization}/_apis/graph/groups?api-version=5.0-preview.1"
  const UsersUrl: string := "https://vssps.dev.azure.com/{organization}/_apis/graph/users?api-version=5.0-preview.1"
  const MembershipUrl: string := "https://vssps.dev.azure.com/{organization}/_apis/Graph/Memberships/{descriptor}?direction={direction}"

  /** What the service answers: the three collections, the membership lists of each
      descriptor in both directions (`up`: its containers, `down`: its members), and
      `other` for any request it has nothing for. */
  datatype Remote = Remote(
    namespaces: Json,
    groups: Json,
    users: Json,
    up: map<string, Json>,
    down: map<string, Json>,
    other: Json)
  {
    function Up(descriptor: string): Json {
      if descriptor in up then up[descriptor] else other
    }

    function Down(descriptor: string): Json {
      if descriptor in down then down[descriptor] else other
    }

    /** The decoded body of `GET url.format(**args)`. */
    function Respond(url: string, args: Option<map<string, Json>>): Json {
      if args.None? then
        if url == NamespacesUrl then namespaces
        else if url == GroupsUrl then groups
        else if url == UsersUrl then users
        else other
      else if url == MembershipUrl && MembershipArgs(args.value, "Up").Some? then Up(MembershipArgs(args.value, "Up").value)
      else if url == MembershipUrl && MembershipArgs(args.value, "Down").Some? then Down(MembershipArgs(args.value, "Down").value)
      else other
    }
  }

  /** The `{'descriptor': d, 'direction': direction}` arguments of a membership request. */
  function MembershipQuery(descriptor: string, direction: string): map<string, Json> {
    map["descriptor" := JStr(descriptor), "direction" := JStr(direction)]
  }

  function MembershipArgs(args: map<string, Json>, direction: string): (r: Option<string>)
    ensures r.Some? ==> args == MembershipQuery(r.value, direction)
    ensures forall d :: args == MembershipQuery(d, direction) ==> r == Some(d)
  {
    if args.Keys == {"descriptor", "direction"} && args["descriptor"].JStr? && args["direction"] == JStr(direction) then
      assert args == MembershipQuery(args["descriptor"].s, direction);
      Some(args["descriptor"].s)
    else None
  }

  /** The signature `_get_request` is cached under: the URL, then the argument dict if
      one was passed. */
  function RequestKey(url: string, args: Option<map<string, Json>>): Key {
    Key("_get_request", [JStr(url)] + (if args.Some? then [JObj(args.value)] else []), [])
  }

  /** What the remote service answers for the call a key stands for, if the key is the
      signature of one of the cached methods. */
  function Expected(remote: Remote, key: Key): Option<Json> {
    if key.kwargs != [] then None
    else if key.name == "_get_request" then
      if |key.args| == 1 && key.args[0].JStr? then Some(remote.Respond(key.args[0].s, None))
      else if |key.args| == 2 && key.args[0].JStr? && key.args[1].JObj? then
        Some(remote.Respond(key.args[0].s, Some(key.args[1].fields)))
      else None
    else if key.args == [] then
      if key.name == "get_namespaces" then Some(remote.namespaces)
      else if key.name == "get_groups" then Some(remote.groups)
      else if key.name == "get_users" then Some(remote.users)
      else None
    else if |key.args| == 1 && key.args[0].JStr? then
      if key.name == "get_entity_memberships" then Some(remote.Up(key.args[0].s))
      else if key.name == "get_entity_members" then Some(remote.Down(key.args[0].s))
      else None
    else None
  }

  /** Every cached answer is the one the service would give now: the service has not
      changed since the entries were written. */
  ghost predicate Coherent(store: map<Key, Entry>, remote: Remote) {
    forall key | key in store && Expected(remote, key).Some? :: store[key].value == Expected(remote, key).value
  }

  /** Storing what the service answers keeps the store coherent. */
  lemma StoreExpected(store: map<Key, Entry>, remote: Remote, key: Key, now: int)
    requires Coherent(store, remote)
    requires Expected(remote, key).Some?
    ensures Coherent(store[key := Entry(now, Expected(remote, key).value)], remote)
    ensures Coherent(store - {key}, remote)
  {
  }

  /** The cache keys of the five endpoint methods (app.py:313-331): the method name and
      its positional arguments. */
  const NamespacesKey: Key := Key("get_namespaces", [], [])
  const GroupsKey: Key := Key("get_groups", [], [])
  const UsersKey: Key := Key("get_users", [], [])

  function MembershipsKey(descriptor: string): Key {
    Key("get_entity_memberships", [JStr(descriptor)], [])
  }

  function MembersKey(descriptor: string): Key {
    Key("get_entity_members", [JStr(descriptor)], [])
  }

  /** The keys one endpoint call may write: its own and the one of its `_get_request`. */
  const NamespacesKeys: set<Key> := {NamespacesKey, RequestKey(NamespacesUrl, None)}
  const GroupsKeys: set<Key> := {GroupsKey, RequestKey(GroupsUrl, None)}
  const UsersKeys: set<Key> := {UsersKey, RequestKey(UsersUrl, None)}

  function MembershipsKeys(descriptor: string): set<Key> {
    {MembershipsKey(descriptor), RequestKey(MembershipUrl, Some(MembershipQuery(descriptor, "Up")))}
  }

  function MembersKeys(descriptor: string): set<Key> {
    {MembersKey(descriptor), RequestKey(MembershipUrl, Some(MembershipQuery(descriptor, "Down")))}
  }

  /** `after` differs from `before` at most at `keys`. */
  ghost predicate Touches(before: map<Key, Entry>, after: map<Key, Entry>, keys: set<Key>) {
    before - keys == after - keys
  }

  lemma TouchesChain(a: map<Key, Entry>, b: map<Key, Entry>, c: map<Key, Entry>, first: set<Key>, second: set<Key>, keys: set<Key>)
    requires Touches(a, b, first) && Touches(b, c, second)
    requires first + second <= keys
    ensures Touches(a, c, keys)
  {
    forall k | k !in keys
      ensures (k in a <==> k in c) && (k in a ==> a[k] == c[k])
    {
      assert k !in first && k !in second;
      assert k in a - first <==> k in b - first;
      assert k in b - second <==> k in c - second;
      if k in a {
        assert (a - first)[k] == (b - first)[k];
        assert (b - second)[k] == (c - second)[k];
      }
    }
  }

  /** The store after an endpoint call that missed: the stale entry is removed, the nested
      `_get_request` writes its own entry unless that one is fresh, and the endpoint stores
      the answer under its key. */
  function AfterMiss(store: map<Key, Entry>, key: Key, request: Key, now: int, answer: Json): map<Key, Entry> {
    var cleared := store - {key};
    var fetched := if IsFresh(cleared, request, Hour, now) then cleared else cleared[request := Entry(now, answer)];
    fetched[key := Entry(now, answer)]
  }

  /** A miss writes only the endpoint key and its request key, and leaves the endpoint
      answer fresh for the whole timeout that follows. */
  lemma {:induction false} MissWritesTwoKeys(store: map<Key, Entry>, key: Key, request: Key, now: int, answer: Json, later: int)
    requires now <= later < now + Month
    ensures Touches(store, AfterMiss(store, key, request, now, answer), {key, request})
    ensures key in AfterMiss(store, key, request, now, answer)
    ensures IsFresh(AfterMiss(store, key, request, now, answer), key, Month, later)
    ensures AfterMiss(store, key, request, now, answer)[key].value == answer
    ensures !IsFresh(store - {key}, request, Hour, now) ==> AfterMiss(store, key, request, now, answer)[request] == Entry(now, answer)
  {
    var after := AfterMiss(store, key, request, now, answer);
    forall k | k !in {key, request}
      ensures (k in store <==> k in after) && (k in store ==> store[k] == after[k])
    {
      assert k != key && k != request;
    }
    if !IsFresh(store - {key}, request, Hour, now) && request != key {
      assert after[request] == (store - {key})[request := Entry(now, answer)][request];
    }
  }

  class CachedApi {
    const remote: Remote
    const cache: Cache

    ghost predicate Valid()
      reads cache
    {
      Coherent(cache.store, remote)
    }

    constructor (remote: Remote, cache: Cache)
      requires Coherent(cache.store, remote)
      ensures this.remote == remote && this.cache == cache
      ensures Valid()
    {
      this.remote := remote;
      this.cache := cache;
    }

    /** `_get_request` (app.py:301-311), cached for an hour: whether or not the cache
        answers, the result is what the service answers. */
    method GetRequest(url: string, args: Option<map<string, Json>>, now: int) returns (r: Json)
      requires Valid()
      modifies cache
      ensures Valid()
      ensures r == remote.Respond(url, args)
      ensures IsFresh(old(cache.store), RequestKey(url, args), Hour, now) ==> cache.store == old(cache.store)
      ensures !IsFresh(old(cache.store), RequestKey(url, args), Hour, now) ==>
                cache.store == old(cache.store)[RequestKey(url, args) := Entry(now, r)]
    {
      var key := RequestKey(url, args);
      assert Expected(remote, key) == Some(remote.Respond(url, args));
      var invoked;
      r, invoked := cache.Call(key, Hour, now, remote.Respond(url, args));
      StoreExpected(old(cache.store), remote, key, now);
    }

    /** An endpoint method under `@cache(timeout=30*DAY)` whose body is one `_get_request`. */
    method Endpoint(key: Key, url: string, args: Option<map<string, Json>>, now: int) returns (r: Json)
      requires Valid()
      requires Expected(remote, key) == Some(remote.Respond(url, args))
      modifies cache
      ensures Valid()
      ensures r == remote.Respond(url, args)
      ensures IsFresh(old(cache.store), key, Month, now) ==> cache.store == old(cache.store)
      ensures !IsFresh(old(cache.store), key, Month, now) ==> cache.store == AfterMiss(old(cache.store), key, RequestKey(url, args), now, r)
      ensures Touches(old(cache.store), cache.store, {key, RequestKey(url, args)})
    {
      var hit := cache.Fetch(key, Month, now);
      if hit.Some? {
        return hit.value;
      }
      StoreExpected(old(cache.store), remote, key, now);
      r := GetRequest(url, args, now);
      StoreExpected(cache.store, remote, key, now);
      cache.Put(key, r, now);
      MissWritesTwoKeys(old(cache.store), key, RequestKey(url, args), now, r, now);
    }

    method GetNamespaces(now: int) returns (r: Json)
      requires Valid()
      modifies cache
      ensures Valid() && r == remote.namespaces
      ensures IsFresh(old(cache.store), NamespacesKey, Month, now) ==> cache.store == old(cache.store)
      ensures !IsFresh(old(cache.store), NamespacesKey, Month, now) ==>
                cache.store == AfterMiss(old(cache.store), NamespacesKey, RequestKey(NamespacesUrl, None), now, r)
      ensures Touches(old(cache.store), cache.store, NamespacesKeys)
    {
      r := Endpoint(NamespacesKey, NamespacesUrl, None, now);
    }

    method GetGroups(now: int) returns (r: Json)
      requires Valid()
      modifies cache
      ensures Valid() && r == remote.groups
      ensures IsFresh(old(cache.store), GroupsKey, Month, now) ==> cache.store == old(cache.store)
      ensures !IsFresh(old(cache.store), GroupsKey, Month, now) ==>
                cache.store == AfterMiss(old(cache.store), GroupsKey, RequestKey(GroupsUrl, None), now, r)
      ensures Touches(old(cache.store), cache.store, GroupsKeys)
    {
      r := Endpoint(GroupsKey, GroupsUrl, None, now);
    }

    method GetUsers(now: int) returns (r: Json)
      requires Valid()
      modifies cache
      ensures Valid() && r == remote.users
      ensures IsFresh(old(cache.store), UsersKey, Month, now) ==> cache.store == old(cache.store)
      ensures !IsFresh(old(cache.store), UsersKey, Month, now) ==>
                cache.store == AfterMiss(old(cache.store), UsersKey, RequestKey(UsersUrl, None), now, r)
      ensures Touches(old(cache.store), cache.store, UsersKeys)
    {
      r := Endpoint(UsersKey, UsersUrl, None, now);
    }

    /** The containers of `descriptor` (direction Up). */
    method GetEntityMemberships(descriptor: string, now: int) returns (r: Json)
      requires Valid()
      modifies cache
      ensures Valid() && r == remote.Up(descriptor)
      ensures IsFresh(old(cache.store), MembershipsKey(descriptor), Month, now) ==> cache.store == old(cache.store)
      ensures !IsFresh(old(cache.store), MembershipsKey(descriptor), Month, now) ==>
                cache.store == AfterMiss(old(cache.store), MembershipsKey(descriptor),
                                         RequestKey(MembershipUrl, Some(MembershipQuery(descriptor, "Up"))), now, r)
      ensures Touches(old(cache.store), cache.store, MembershipsKeys(descriptor))
    {
      r := Endpoint(MembershipsKey(descriptor), MembershipUrl, Some(MembershipQuery(descriptor, "Up")), now);
    }

    /** The members of `descriptor` (direction Down). */
    method GetEntityMembers(descriptor: string, now: int) returns (r: Json)
      requires Valid()
      modifies cache
      ensures Valid() && r == remote.Down(descriptor)
      ensures IsFresh(old(cache.store), MembersKey(descriptor), Month, now) ==> cache.store == old(cache.store)
      ensures !IsFresh(old(cache.store), MembersKey(descriptor), Month, now) ==>
                cache.store == AfterMiss(old(cache.store), MembersKey(descriptor),
                                         RequestKey(MembershipUrl, Some(MembershipQuery(descriptor, "Down"))), now, r)
      ensures Touches(old(cache.store), cache.store, MembersKeys(descriptor))
    {
      r := Endpoint(MembersKey(descriptor), MembershipUrl, Some(MembershipQuery(descriptor, "Down")), now);
    }
  }
}
