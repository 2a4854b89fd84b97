/** `DevopsBrowser` (app.py:126-260): lazily built indices over the cached API, the merged
    lookup table, connection resolution and the transitive closure. */
module Resolver {
  import opened Wrappers
  import opened Json
  import opened ResponseCache
  import opened RemoteApi
  import opened Entities
  import opened Closure

  /** A collection response as the comprehensions iterate it: unpacked, then a list. */
  function RawList(data: Json): (r: Result<seq<Json>>)
    ensures r.Ok? <==> Unpack(data).Ok? && Unpack(data).value.JArr?
  {
    var unpacked :- Unpack(data);
    AsList(unpacked)
  }

  /** The index comprehension over a collection response (app.py:157-161, 176-180,
      199-203): every record becomes an entity filed under its key. */
  function Index(data: Json, kind: Kind): (r: Result<map<string, Entity>>)
    ensures r.Ok? <==> RawList(data).Ok? && forall i | 0 <= i < |RawList(data).value| :: WellFormed(kind, RawList(data).value[i])
    ensures r.Ok? ==> r.value.Keys == RecordKeys(kind, RawList(data).value)
    ensures r.Ok? ==> IndexOf(r.value, kind)
  {
    var items :- RawList(data);
    var m := BuildIndex(map[], items, kind);
    if m.Ok? then BuildIsIndex(map[], items, kind); m else m
  }

  function NamespaceIndex(remote: Remote): Result<map<string, Entity>> {
    Index(remote.namespaces, NamespaceKind)
  }

  function GroupIndex(remote: Remote): Result<map<string, Entity>> {
    Index(remote.groups, GroupKind)
  }

  function UserIndex(remote: Remote): Result<map<string, Entity>> {
    Index(remote.users, UserKind)
  }

  /** The lookup table once both group and user indices are loaded. Each load merges its
      index over the table (`{**lookup_table, **index}`), so the index loaded second wins
      on a shared descriptor; `lookup` loads groups first unless users were loaded before. */
  function LoadAll(remote: Remote, usersFirst: bool): (r: Result<map<string, Entity>>)
    ensures r.Ok? <==> GroupIndex(remote).Ok? && UserIndex(remote).Ok?
    ensures r.Err? ==> r.error == if GroupIndex(remote).Err? then GroupIndex(remote).error else UserIndex(remote).error
    ensures r.Ok? ==> r.value.Keys == GroupIndex(remote).value.Keys + UserIndex(remote).value.Keys
    ensures r.Ok? ==> forall d | d in r.value :: r.value[d].HasDescriptor() && r.value[d].descriptor == d
    ensures r.Ok? && !usersFirst ==> forall d | d in UserIndex(remote).value :: r.value[d] == UserIndex(remote).value[d]
    ensures r.Ok? && usersFirst ==> forall d | d in GroupIndex(remote).value :: r.value[d] == GroupIndex(remote).value[d]
    ensures r.Ok? ==> forall d | d in r.value :: r.value[d] in GroupIndex(remote).value.Values + UserIndex(remote).value.Values
  {
    var groups :- GroupIndex(remote);
    var users :- UserIndex(remote);
    Ok(if usersFirst then users + groups else groups + users)
  }

  /** `item` names, under `key`, a descriptor the loaded table resolves to `e`. */
  ghost predicate Resolves(load: Result<map<string, Entity>>, item: Json, key: string, e: Entity) {
    && load.Ok?
    && StringField(item, key).Ok?
    && StringField(item, key).value in load.value
    && load.value[StringField(item, key).value] == e
  }

  /** `[x for x in [lookup(item[key]) for item in items] if x is not None]`: each descriptor
      is read and looked up in turn (the first lookup loads the table); descriptors the
      table lacks are dropped without error. */
  function ResolveItems(items: seq<Json>, key: string, load: Result<map<string, Entity>>): (r: Result<seq<Entity>>)
    ensures load.Ok? ==> (r.Ok? <==> forall i | 0 <= i < |items| :: StringField(items[i], key).Ok?)
    ensures r.Ok? && items != [] ==> load.Ok?
    ensures r.Ok? ==> forall e :: e in r.value <==> exists i | 0 <= i < |items| :: Resolves(load, items[i], key, e)
  {
    if items == [] then Ok([])
    else
      var descriptor :- StringField(items[0], key);
      var table :- load;
      var rest :- ResolveItems(items[1..], key, load);
      var r := Ok((if descriptor in table then [table[descriptor]] else []) + rest);
      assert forall i | 1 <= i < |items| :: items[1..][i - 1] == items[i];
      assert forall e :: e in r.value <==> exists i | 0 <= i < |items| :: Resolves(load, items[i], key, e) by {
        forall e ensures e in r.value <==> exists i | 0 <= i < |items| :: Resolves(load, items[i], key, e) {
          if e in rest {
            var i :| 0 <= i < |items[1..]| && Resolves(load, items[1..][i], key, e);
            assert Resolves(load, items[i + 1], key, e);
          }
          if exists i | 0 <= i < |items| :: Resolves(load, items[i], key, e) {
            var i :| 0 <= i < |items| && Resolves(load, items[i], key, e);
            if i > 0 {
              assert Resolves(load, items[1..][i - 1], key, e);
            }
          }
        }
      }
      r
  }

  /** The item at `i` names, under `key`, a descriptor the table holds. */
  predicate Names(items: seq<Json>, key: string, table: map<string, Entity>, i: int) {
    0 <= i < |items| && StringField(items[i], key).Ok? && StringField(items[i], key).value in table
  }

  /** The positions from `from` on whose descriptors the table holds. */
  ghost function Positions(items: seq<Json>, key: string, table: map<string, Entity>, from: nat): seq<nat>
    decreases |items| - from
  {
    if from >= |items| then []
    else (if Names(items, key, table, from) then [from] else []) + Positions(items, key, table, from + 1)
  }

  /** Every position `Positions` lists is a hit at or after `from`. */
  lemma {:induction false} PositionsAreHits(items: seq<Json>, key: string, table: map<string, Entity>, from: nat)
    ensures forall k | 0 <= k < |Positions(items, key, table, from)| ::
              from <= Positions(items, key, table, from)[k] && Names(items, key, table, Positions(items, key, table, from)[k])
    decreases |items| - from
  {
    if from < |items| {
      PositionsAreHits(items, key, table, from + 1);
      var head: seq<nat> := if Names(items, key, table, from) then [from] else [];
      var rest := Positions(items, key, table, from + 1);
      assert Positions(items, key, table, from) == head + rest;
      forall k | 0 <= k < |head + rest|
        ensures from <= (head + rest)[k] && Names(items, key, table, (head + rest)[k])
      {
        if k < |head| {
          assert (head + rest)[k] == from;
        } else {
          assert (head + rest)[k] == rest[k - |head|];
        }
      }
    }
  }

  /** `Positions` is strictly increasing, so it lists each hit once and in item order. */
  lemma {:induction false} PositionsIncrease(items: seq<Json>, key: string, table: map<string, Entity>, from: nat)
    ensures forall j, k | 0 <= j < k < |Positions(items, key, table, from)| ::
              Positions(items, key, table, from)[j] < Positions(items, key, table, from)[k]
    decreases |items| - from
  {
    if from < |items| {
      PositionsIncrease(items, key, table, from + 1);
      PositionsAreHits(items, key, table, from + 1);
      var head: seq<nat> := if Names(items, key, table, from) then [from] else [];
      var rest := Positions(items, key, table, from + 1);
      assert Positions(items, key, table, from) == head + rest;
      forall j, k | 0 <= j < k < |head + rest|
        ensures (head + rest)[j] < (head + rest)[k]
      {
        assert (head + rest)[k] == rest[k - |head|];
        if j < |head| {
          assert (head + rest)[j] == from;
        } else {
          assert (head + rest)[j] == rest[j - |head|];
        }
      }
    }
  }

  /** `Positions` misses no hit at or after `from`. */
  lemma {:induction false} PositionsCoverHits(items: seq<Json>, key: string, table: map<string, Entity>, from: nat)
    ensures forall i | from <= i < |items| && Names(items, key, table, i) :: i in Positions(items, key, table, from)
    decreases |items| - from
  {
    if from < |items| {
      PositionsCoverHits(items, key, table, from + 1);
      var head: seq<nat> := if Names(items, key, table, from) then [from] else [];
      assert Positions(items, key, table, from) == head + Positions(items, key, table, from + 1);
    }
  }

  /** A successful `ResolveItems` keeps one entity per hit, in the order of the items:
      the `k`-th result is what the table holds for the `k`-th hit. */
  lemma {:induction false} ResolveItemsInOrder(items: seq<Json>, key: string, table: map<string, Entity>, from: nat)
    requires from <= |items|
    requires ResolveItems(items[from..], key, Ok(table)).Ok?
    ensures var r, p := ResolveItems(items[from..], key, Ok(table)).value, Positions(items, key, table, from);
            && |r| == |p|
            && forall k | 0 <= k < |p| :: Names(items, key, table, p[k]) && r[k] == table[StringField(items[p[k]], key).value]
    decreases |items| - from
  {
    if from < |items| {
      assert items[from..][1..] == items[from + 1..];
      assert items[from..][0] == items[from];
      ResolveItemsInOrder(items, key, table, from + 1);
    }
  }

  /** The resolution half of `get_entity_connections` (app.py:227-237), on the unpacked
      answers: the containers are resolved first, then the members, and each list is
      sorted by name. */
  function ConnectionsFrom(up: Json, down: Json, load: Result<map<string, Entity>>): (r: Result<Connections>)
    ensures r.Ok? ==> SortedByName(r.value.members) && SortedByName(r.value.memberships)
    ensures r.Ok? <==> && AsList(up).Ok? && ResolveItems(AsList(up).value, "containerDescriptor", load).Ok?
                       && AsList(down).Ok? && ResolveItems(AsList(down).value, "memberDescriptor", load).Ok?
    ensures r.Ok? ==> multiset(r.value.memberships) == multiset(ResolveItems(AsList(up).value, "containerDescriptor", load).value)
    ensures r.Ok? ==> multiset(r.value.members) == multiset(ResolveItems(AsList(down).value, "memberDescriptor", load).value)
    ensures r.Ok? ==> forall e :: e in r.value.memberships <==>
              exists i | 0 <= i < |AsList(up).value| :: Resolves(load, AsList(up).value[i], "containerDescriptor", e)
    ensures r.Ok? ==> forall e :: e in r.value.members <==>
              exists i | 0 <= i < |AsList(down).value| :: Resolves(load, AsList(down).value[i], "memberDescriptor", e)
  {
    var upItems :- AsList(up);
    var containers :- ResolveItems(upItems, "containerDescriptor", load);
    var downItems :- AsList(down);
    var members :- ResolveItems(downItems, "memberDescriptor", load);
    var r := Connections(SortByName(members), SortByName(containers));
    assert forall e :: e in r.members <==> e in members by {
      forall e ensures e in r.members <==> e in members {
        assert e in r.members <==> e in multiset(r.members);
      }
    }
    assert forall e :: e in r.memberships <==> e in containers by {
      forall e ensures e in r.memberships <==> e in containers {
        assert e in r.memberships <==> e in multiset(r.memberships);
      }
    }
    Ok(r)
  }

  /** `get_entity_connections(d)` (app.py:221-237): the memberships answer is unpacked
      before the members answer is fetched; then both lists are resolved. */
  function ConnectionsOf(remote: Remote, load: Result<map<string, Entity>>, d: string): (r: Result<Connections>)
    ensures Unpack(remote.Up(d)).Err? ==> r == Err(Unpack(remote.Up(d)).error)
    ensures r.Ok? ==> RawList(remote.Up(d)).Ok? && RawList(remote.Down(d)).Ok?
    ensures r.Ok? ==> SortedByName(r.value.members) && SortedByName(r.value.memberships)
    ensures r.Ok? ==> forall e :: e in r.value.memberships <==>
              exists i | 0 <= i < |RawList(remote.Up(d)).value| :: Resolves(load, RawList(remote.Up(d)).value[i], "containerDescriptor", e)
    ensures r.Ok? ==> forall e :: e in r.value.members <==>
              exists i | 0 <= i < |RawList(remote.Down(d)).value| :: Resolves(load, RawList(remote.Down(d)).value[i], "memberDescriptor", e)
  {
    var up :- Unpack(remote.Up(d));
    var down :- Unpack(remote.Down(d));
    ConnectionsFrom(up, down, load)
  }

  /** Each connection list keeps every resolved entity as often as the answer names it:
      sorting reorders the resolved list and drops nothing. */
  lemma ConnectionsOfCounts(remote: Remote, load: Result<map<string, Entity>>, d: string)
    requires ConnectionsOf(remote, load, d).Ok?
    ensures RawList(remote.Up(d)).Ok? && RawList(remote.Down(d)).Ok?
    ensures multiset(ConnectionsOf(remote, load, d).value.memberships)
            == multiset(ResolveItems(RawList(remote.Up(d)).value, "containerDescriptor", load).value)
    ensures multiset(ConnectionsOf(remote, load, d).value.members)
            == multiset(ResolveItems(RawList(remote.Down(d)).value, "memberDescriptor", load).value)
  {
    var up, down := Unpack(remote.Up(d)).value, Unpack(remote.Down(d)).value;
    assert ConnectionsOf(remote, load, d) == ConnectionsFrom(up, down, load);
  }

  /** The connections the browser sees once its table is the one `lookup` loads. */
  function ConnOf(remote: Remote, usersFirst: bool): string -> Result<Connections> {
    d => ConnectionsOf(remote, LoadAll(remote, usersFirst), d)
  }

  lemma MergedIsLoadAll(remote: Remote, g: map<string, Entity>, u: map<string, Entity>, usersFirst: bool)
    requires GroupIndex(remote) == Ok(g) && UserIndex(remote) == Ok(u)
    ensures LoadAll(remote, usersFirst) == Ok(Merged(Some(g), Some(u), usersFirst))
  {
  }

  lemma LoadAllFails(remote: Remote, usersFirst: bool)
    ensures GroupIndex(remote).Err? ==> LoadAll(remote, usersFirst) == Err(GroupIndex(remote).error)
    ensures GroupIndex(remote).Ok? && UserIndex(remote).Err? ==> LoadAll(remote, usersFirst) == Err(UserIndex(remote).error)
  {
  }

  /** The lookup table as the loads so far have left it. */
  function Merged(groups: Option<map<string, Entity>>, users: Option<map<string, Entity>>, usersFirst: bool): map<string, Entity> {
    match (groups, users)
    case (None, None) => map[]
    case (Some(g), None) => g
    case (None, Some(u)) => u
    case (Some(g), Some(u)) => if usersFirst then u + g else g + u
  }

  /** A group and a user that share the descriptor "x". */
  const SharedGroup := Group("x", "G", JNull, JNull)
  const SharedUser := User("x", "U", JNull, JStr(LiveDomain))
  const SharedRemote := Remote(
    JArr([]),
    Envelope([JObj(map["descriptor" := JStr("x"), "principalName" := JStr("G"), "displayName" := JNull, "description" := JNull])]),
    Envelope([JObj(map["descriptor" := JStr("x"), "principalName" := JStr("U"), "displayName" := JNull, "domain" := JStr(LiveDomain)])]),
    map[], map[], JNull)

  lemma SharedIndices()
    ensures GroupIndex(SharedRemote) == Ok(map["x" := SharedGroup])
    ensures UserIndex(SharedRemote) == Ok(map["x" := SharedUser])
  {
    SharedGroupIndex();
    SharedUserIndex();
  }

  lemma SharedGroupIndex()
    ensures GroupIndex(SharedRemote) == Ok(map["x" := SharedGroup])
  {
    var g := [JObj(map["descriptor" := JStr("x"), "principalName" := JStr("G"), "displayName" := JNull, "description" := JNull])];
    assert RawList(SharedRemote.groups) == Ok(g);
    assert ParseRecord(GroupKind, g[0]) == Ok(("x", SharedGroup));
    assert BuildIndex(map[], g, GroupKind) == Ok(map["x" := SharedGroup]);
  }

  lemma SharedUserIndex()
    ensures UserIndex(SharedRemote) == Ok(map["x" := SharedUser])
  {
    var u := [JObj(map["descriptor" := JStr("x"), "principalName" := JStr("U"), "displayName" := JNull, "domain" := JStr(LiveDomain)])];
    assert RawList(SharedRemote.users) == Ok(u);
    assert ParseRecord(UserKind, u[0]) == Ok(("x", SharedUser));
    assert BuildIndex(map[], u, UserKind) == Ok(map["x" := SharedUser]);
  }

  /** On a shared descriptor the lookup table holds the entity of the index merged last:
      the user when `lookup` loads both indices itself, the group when `get_users` ran
      before any group load. */
  lemma SharedDescriptorPrecedence()
    ensures LoadAll(SharedRemote, false) == Ok(map["x" := SharedUser])
    ensures LoadAll(SharedRemote, true) == Ok(map["x" := SharedGroup])
  {
    SharedIndices();
    assert map["x" := SharedGroup] + map["x" := SharedUser] == map["x" := SharedUser];
    assert map["x" := SharedUser] + map["x" := SharedGroup] == map["x" := SharedGroup];
  }

  /** The cache keys one `get_entity_connections(descriptor)` call may write: both
      membership endpoints of the descriptor, and the group and user endpoints that the
      first lookup loads. */
  function ConnectionKeys(descriptor: string): set<Key> {
    MembershipsKeys(descriptor) + MembersKeys(descriptor) + GroupsKeys + UsersKeys
  }

  /** A key that some `get_entity_connections` call may write: the group and user
      endpoints, the two membership endpoints of any descriptor, and the membership
      requests those make. */
  predicate ConnectionCall(k: Key) {
    || k in GroupsKeys + UsersKeys
    || k.name == "get_entity_memberships" || k.name == "get_entity_members"
    || (k.name == "_get_request" && k.args != [] && k.args[0] == JStr(MembershipUrl))
  }

  /** The keys of either store that `get_entity_connections` calls may write. */
  ghost function CallKeys(before: map<Key, Entry>, after: map<Key, Entry>): set<Key> {
    set k | k in before.Keys + after.Keys && ConnectionCall(k)
  }

  /** `after` differs from `before` only at keys that `get_entity_connections` calls may
      write: every other key keeps its presence and its entry. */
  ghost predicate OnlyConnectionKeys(before: map<Key, Entry>, after: map<Key, Entry>) {
    before - CallKeys(before, after) == after - CallKeys(before, after)
  }

  /** What the frame says of one key outside it. */
  lemma FrameAt(before: map<Key, Entry>, after: map<Key, Entry>, k: Key)
    requires OnlyConnectionKeys(before, after) && !ConnectionCall(k)
    ensures (k in before <==> k in after) && (k in before ==> before[k] == after[k])
  {
    var written := CallKeys(before, after);
    assert k !in written;
    assert k in before - written <==> k in after - written;
    if k in before {
      assert (before - written)[k] == (after - written)[k];
    }
  }

  /** The frame holds once every key outside it keeps its presence and its entry. */
  lemma FrameFrom(before: map<Key, Entry>, after: map<Key, Entry>)
    requires forall k | !ConnectionCall(k) :: (k in before <==> k in after) && (k in before ==> before[k] == after[k])
    ensures OnlyConnectionKeys(before, after)
  {
    var written := CallKeys(before, after);
    assert (before - written).Keys == (after - written).Keys;
    assert forall k | k in before - written :: (before - written)[k] == (after - written)[k];
  }

  /** One more `get_entity_connections` call keeps a traversal inside its frame. */
  lemma ConnectionsInFrame(a: map<Key, Entry>, b: map<Key, Entry>, c: map<Key, Entry>, d: string)
    requires OnlyConnectionKeys(a, b) && Touches(b, c, ConnectionKeys(d))
    ensures OnlyConnectionKeys(a, c)
  {
    forall k | !ConnectionCall(k) ensures (k in a <==> k in c) && (k in a ==> a[k] == c[k]) {
      FrameAt(a, b, k);
      assert k != MembershipsKey(d) && k != MembersKey(d);
      assert k !in ConnectionKeys(d);
      assert k in b - ConnectionKeys(d) <==> k in c - ConnectionKeys(d);
      if k in b {
        assert (b - ConnectionKeys(d))[k] == (c - ConnectionKeys(d))[k];
      }
    }
    FrameFrom(a, c);
  }

  /** Two steps inside the frame make one. */
  lemma FrameChain(a: map<Key, Entry>, b: map<Key, Entry>, c: map<Key, Entry>)
    requires OnlyConnectionKeys(a, b) && OnlyConnectionKeys(b, c)
    ensures OnlyConnectionKeys(a, c)
  {
    forall k | !ConnectionCall(k) ensures (k in a <==> k in c) && (k in a ==> a[k] == c[k]) {
      FrameAt(a, b, k);
      FrameAt(b, c, k);
    }
    FrameFrom(a, c);
  }

  /** An index once loaded stays as it is: no browser method clears or replaces one. */
  predicate Kept(before: Option<map<string, Entity>>, after: Option<map<string, Entity>>) {
    before.Some? ==> after == before
  }

  /** `acc` followed by the outcome of the rest of a resolution. */
  function Prepend(acc: seq<Entity>, rest: Result<seq<Entity>>): Result<seq<Entity>> {
    var tail :- rest;
    Ok(acc + tail)
  }

  /** What looking `descriptor` up in `table` adds to a resolution. */
  function Hit(table: map<string, Entity>, descriptor: string): seq<Entity> {
    if descriptor in table then [table[descriptor]] else []
  }

  lemma PrependNothing(rest: Result<seq<Entity>>)
    ensures Prepend([], rest) == rest
  {
    if rest.Ok? {
      assert [] + rest.value == rest.value;
    }
  }

  lemma PrependTwice(a: seq<Entity>, b: seq<Entity>, rest: Result<seq<Entity>>)
    ensures Prepend(a, Prepend(b, rest)) == Prepend(a + b, rest)
  {
    if rest.Ok? {
      assert a + (b + rest.value) == a + b + rest.value;
    }
  }

  /** One step of `ResolveItems` from position `i`. */
  lemma ResolveStep(items: seq<Json>, key: string, load: Result<map<string, Entity>>, i: nat)
    requires i < |items|
    ensures StringField(items[i], key).Err? ==> ResolveItems(items[i..], key, load) == Err(StringField(items[i], key).error)
    ensures StringField(items[i], key).Ok? && load.Err? ==> ResolveItems(items[i..], key, load) == Err(load.error)
    ensures StringField(items[i], key).Ok? && load.Ok? ==>
              ResolveItems(items[i..], key, load) == Prepend(Hit(load.value, StringField(items[i], key).value), ResolveItems(items[i + 1..], key, load))
  {
    assert items[i..][0] == items[i] && items[i..][1..] == items[i + 1..];
  }

  /** Each loaded index is the one the remote collection gives; the table is the merge of
      the loaded indices in load order; `loaded` counts the loaded indices. */
  ghost predicate Loaded(remote: Remote, namespaces: Option<map<string, Entity>>, groups: Option<map<string, Entity>>,
                         users: Option<map<string, Entity>>, table: map<string, Entity>, loaded: nat, usersFirst: bool)
  {
    && (namespaces.Some? ==> NamespaceIndex(remote) == Ok(namespaces.value))
    && (groups.Some? ==> GroupIndex(remote) == Ok(groups.value))
    && (users.Some? ==> UserIndex(remote) == Ok(users.value))
    && loaded == (if groups.Some? then 1 else 0) + (if users.Some? then 1 else 0)
    && (usersFirst ==> users.Some?)
    && (users.Some? && groups.None? ==> usersFirst)
    && table == Merged(groups, users, usersFirst)
  }

  /** Loading the user index merges it over the table; it comes first when no group
      index was loaded before it. */
  lemma LoadUsers(remote: Remote, namespaces: Option<map<string, Entity>>, groups: Option<map<string, Entity>>,
                  table: map<string, Entity>, loaded: nat, usersFirst: bool, u: map<string, Entity>)
    requires Loaded(remote, namespaces, groups, None, table, loaded, usersFirst)
    requires UserIndex(remote) == Ok(u)
    ensures Loaded(remote, namespaces, groups, Some(u), table + u, loaded + 1, groups.None?)
  {
  }

  /** Loading the group index merges it over the table. */
  lemma LoadGroups(remote: Remote, namespaces: Option<map<string, Entity>>, users: Option<map<string, Entity>>,
                   table: map<string, Entity>, loaded: nat, usersFirst: bool, g: map<string, Entity>)
    requires Loaded(remote, namespaces, None, users, table, loaded, usersFirst)
    requires GroupIndex(remote) == Ok(g)
    ensures Loaded(remote, namespaces, Some(g), users, table + g, loaded + 1, usersFirst)
  {
  }

  class Browser {
    const api: CachedApi
    var namespaces: Option<map<string, Entity>>
    var groups: Option<map<string, Entity>>
    var users: Option<map<string, Entity>>
    var lookupTable: map<string, Entity>
    var lookupLoaded: nat
    /** Whether the user index was merged into the table before the group index. */
    ghost var usersFirst: bool

    /** Each loaded index is the one the remote collection gives; the table is the merge of
        the loaded indices in load order; `lookupLoaded` counts the loaded indices. */
    ghost predicate Valid()
      reads this, api.cache
      ensures Valid() ==> lookupLoaded <= 2
    {
      && api.Valid()
      && Loaded(api.remote, namespaces, groups, users, lookupTable, lookupLoaded, usersFirst)
    }

    constructor (api: CachedApi)
      requires api.Valid()
      ensures Valid() && this.api == api
      ensures namespaces.None? && groups.None? && users.None? && lookupTable == map[] && lookupLoaded == 0
    {
      this.api := api;
      namespaces, groups, users := None, None, None;
      lookupTable, lookupLoaded := map[], 0;
      usersFirst := false;
    }

    /** `get_namespaces` (app.py:154-162): built on the first call, then returned as is. */
    method GetNamespaces(now: int) returns (r: Result<map<string, Entity>>)
      requires Valid()
      modifies this, api.cache
      ensures Valid()
      ensures r == NamespaceIndex(api.remote)
      ensures old(namespaces).Some? ==> unchanged(this) && unchanged(api.cache)
      ensures namespaces == (if r.Ok? then Some(r.value) else old(namespaces))
      ensures groups == old(groups) && users == old(users) && lookupTable == old(lookupTable)
      ensures lookupLoaded == old(lookupLoaded) && usersFirst == old(usersFirst)
      ensures Touches(old(api.cache.store), api.cache.store, NamespacesKeys)
    {
      if namespaces.None? {
        var data := api.GetNamespaces(now);
        var index := Index(data, NamespaceKind);
        if index.Err? {
          return index;
        }
        namespaces := Some(index.value);
      }
      r := Ok(namespaces.value);
    }

    /** `get_groups` (app.py:174-185): on the first call the index is built and merged
        into the lookup table, and the loaded count goes up by one. */
    method GetGroups(now: int) returns (r: Result<map<string, Entity>>)
      requires Valid()
      modifies this, api.cache
      ensures Valid()
      ensures r == GroupIndex(api.remote)
      ensures old(groups).Some? ==> unchanged(this) && unchanged(api.cache)
      ensures old(groups).None? && r.Ok? ==>
                groups == Some(r.value) && lookupTable == old(lookupTable) + r.value && lookupLoaded == old(lookupLoaded) + 1
      ensures r.Err? ==> groups == old(groups) && lookupTable == old(lookupTable) && lookupLoaded == old(lookupLoaded)
      ensures namespaces == old(namespaces) && users == old(users) && usersFirst == old(usersFirst)
      ensures Touches(old(api.cache.store), api.cache.store, GroupsKeys)
    {
      if groups.None? {
        var data := api.GetGroups(now);
        var index := Index(data, GroupKind);
        if index.Err? {
          return index;
        }
        LoadGroups(api.remote, namespaces, users, lookupTable, lookupLoaded, usersFirst, index.value);
        groups := Some(index.value);
        lookupTable := lookupTable + index.value;
        lookupLoaded := lookupLoaded + 1;
      }
      r := Ok(groups.value);
    }

    /** `get_users` (app.py:197-209), the same for users. */
    method GetUsers(now: int) returns (r: Result<map<string, Entity>>)
      requires Valid()
      modifies this, api.cache
      ensures Valid()
      ensures r == UserIndex(api.remote)
      ensures old(users).Some? ==> unchanged(this) && unchanged(api.cache)
      ensures old(users).None? && r.Ok? ==>
                users == Some(r.value) && lookupTable == old(lookupTable) + r.value && lookupLoaded == old(lookupLoaded) + 1
      ensures r.Err? ==> users == old(users) && lookupTable == old(lookupTable) && lookupLoaded == old(lookupLoaded)
      ensures namespaces == old(namespaces) && groups == old(groups)
      ensures usersFirst == if old(users).None? && r.Ok? then old(groups).None? else old(usersFirst)
      ensures Touches(old(api.cache.store), api.cache.store, UsersKeys)
    {
      if users.None? {
        var data := api.GetUsers(now);
        var index := Index(data, UserKind);
        if index.Err? {
          return index;
        }
        LoadUsers(api.remote, namespaces, groups, lookupTable, lookupLoaded, usersFirst, index.value);
        users := Some(index.value);
        lookupTable := lookupTable + index.value;
        lookupLoaded := lookupLoaded + 1;
        usersFirst := groups.None?;
      }
      r := Ok(users.value);
    }

    /** `lookup` (app.py:143-152): loads both indices unless they are, then reads the table. */
    method Lookup(descriptor: string, now: int) returns (r: Result<Option<Entity>>)
      requires Valid()
      modifies this, api.cache
      ensures Valid() && usersFirst == old(usersFirst) && namespaces == old(namespaces)
      ensures r.Ok? ==> groups.Some? && users.Some? && lookupLoaded == 2
      ensures r.Ok? <==> LoadAll(api.remote, usersFirst).Ok?
      ensures r.Err? ==> r.error == LoadAll(api.remote, usersFirst).error
      ensures r.Ok? ==> r.value == if descriptor in lookupTable then Some(lookupTable[descriptor]) else None
      ensures r.Ok? ==> lookupTable == LoadAll(api.remote, usersFirst).value
      ensures r.Ok? ==> (r.value.Some? <==> descriptor in GroupIndex(api.remote).value || descriptor in UserIndex(api.remote).value)
      ensures r.Ok? && r.value.Some? ==> r.value.value.HasDescriptor() && r.value.value.descriptor == descriptor
      ensures Touches(old(api.cache.store), api.cache.store, GroupsKeys + UsersKeys)
      ensures Kept(old(groups), groups) && Kept(old(users), users)
    {
      if lookupLoaded < 2 {
        var g := GetGroups(now);
        if g.Err? {
          LoadAllFails(api.remote, usersFirst);
          TouchesChain(old(api.cache.store), api.cache.store, api.cache.store, GroupsKeys, {}, GroupsKeys + UsersKeys);
          return Err(g.error);
        }
        ghost var between := api.cache.store;
        var u := GetUsers(now);
        TouchesChain(old(api.cache.store), between, api.cache.store, GroupsKeys, UsersKeys, GroupsKeys + UsersKeys);
        if u.Err? {
          LoadAllFails(api.remote, usersFirst);
          return Err(u.error);
        }
      }
      MergedIsLoadAll(api.remote, groups.value, users.value, usersFirst);
      r := Ok(if descriptor in lookupTable then Some(lookupTable[descriptor]) else None);
    }
  
    /** `get_namespace` (app.py:164-168): the namespace of that name, or not found. */
    method GetNamespace(name: string, now: int) returns (r: Result<Entity>)
      requires Valid()
      modifies this, api.cache
      ensures Valid()
      ensures NamespaceIndex(api.remote).Err? ==> r == Err(NamespaceIndex(api.remote).error)
      ensures NamespaceIndex(api.remote).Ok? && name in NamespaceIndex(api.remote).value ==>
                r == Ok(NamespaceIndex(api.remote).value[name]) && r.value.Namespace? && r.value.name == name
      ensures NamespaceIndex(api.remote).Ok? && name !in NamespaceIndex(api.remote).value ==> r == Err(NotFound(name))
      ensures old(namespaces).Some? ==> unchanged(this) && unchanged(api.cache)
      ensures namespaces == (if NamespaceIndex(api.remote).Ok? then Some(NamespaceIndex(api.remote).value) else old(namespaces))
      ensures groups == old(groups) && users == old(users) && lookupTable == old(lookupTable)
      ensures lookupLoaded == old(lookupLoaded) && usersFirst == old(usersFirst)
      ensures Touches(old(api.cache.store), api.cache.store, NamespacesKeys)
    {
      var index := GetNamespaces(now);
      if index.Err? {
        return Err(index.error);
      }
      if name !in index.value {
        return Err(NotFound(name));
      }
      r := Ok(index.value[name]);
    }

    /** `get_group` (app.py:187-191): the group with that descriptor, or not found. */
    method GetGroup(descriptor: string, now: int) returns (r: Result<Entity>)
      requires Valid()
      modifies this, api.cache
      ensures Valid()
      ensures GroupIndex(api.remote).Err? ==> r == Err(GroupIndex(api.remote).error)
      ensures GroupIndex(api.remote).Ok? && descriptor in GroupIndex(api.remote).value ==>
                r == Ok(GroupIndex(api.remote).value[descriptor]) && r.value.Group? && r.value.descriptor == descriptor
      ensures GroupIndex(api.remote).Ok? && descriptor !in GroupIndex(api.remote).value ==> r == Err(NotFound(descriptor))
      ensures old(groups).Some? ==> unchanged(this) && unchanged(api.cache)
      ensures old(groups).None? && GroupIndex(api.remote).Ok? ==>
                groups == Some(GroupIndex(api.remote).value) && lookupTable == old(lookupTable) + GroupIndex(api.remote).value &&
                lookupLoaded == old(lookupLoaded) + 1
      ensures GroupIndex(api.remote).Err? ==> groups == old(groups) && lookupTable == old(lookupTable) && lookupLoaded == old(lookupLoaded)
      ensures namespaces == old(namespaces) && users == old(users) && usersFirst == old(usersFirst)
      ensures Touches(old(api.cache.store), api.cache.store, GroupsKeys)
    {
      var index := GetGroups(now);
      if index.Err? {
        return Err(index.error);
      }
      if descriptor !in index.value {
        return Err(NotFound(descriptor));
      }
      r := Ok(index.value[descriptor]);
    }

    /** `get_user` (app.py:211-215): the user with that descriptor, or not found. */
    method GetUser(descriptor: string, now: int) returns (r: Result<Entity>)
      requires Valid()
      modifies this, api.cache
      ensures Valid()
      ensures UserIndex(api.remote).Err? ==> r == Err(UserIndex(api.remote).error)
      ensures UserIndex(api.remote).Ok? && descriptor in UserIndex(api.remote).value ==>
                r == Ok(UserIndex(api.remote).value[descriptor]) && r.value.User? && r.value.descriptor == descriptor
      ensures UserIndex(api.remote).Ok? && descriptor !in UserIndex(api.remote).value ==> r == Err(NotFound(descriptor))
      ensures old(users).Some? ==> unchanged(this) && unchanged(api.cache)
      ensures old(users).None? && UserIndex(api.remote).Ok? ==>
                users == Some(UserIndex(api.remote).value) && lookupTable == old(lookupTable) + UserIndex(api.remote).value &&
                lookupLoaded == old(lookupLoaded) + 1
      ensures UserIndex(api.remote).Err? ==> users == old(users) && lookupTable == old(lookupTable) && lookupLoaded == old(lookupLoaded)
      ensures namespaces == old(namespaces) && groups == old(groups)
      ensures usersFirst == if old(users).None? && UserIndex(api.remote).Ok? then old(groups).None? else old(usersFirst)
      ensures Touches(old(api.cache.store), api.cache.store, UsersKeys)
    {
      var index := GetUsers(now);
      if index.Err? {
        return Err(index.error);
      }
      if descriptor !in index.value {
        return Err(NotFound(descriptor));
      }
      r := Ok(index.value[descriptor]);
    }

    /** `get_sorted_namespaces` (app.py:170-172): every namespace, sorted by name. `order`
        is the dict's iteration order, which decides the order of equal names. */
    method GetSortedNamespaces(now: int) returns (r: Result<seq<Entity>>, order: seq<string>)
      requires Valid()
      modifies this, api.cache
      ensures Valid()
      ensures r.Ok? <==> NamespaceIndex(api.remote).Ok?
      ensures r.Err? ==> r.error == NamespaceIndex(api.remote).error
      ensures r.Ok? ==> Enumerates(order, NamespaceIndex(api.remote).value) &&
                        r.value == SortByName(ValuesAt(NamespaceIndex(api.remote).value, order))
      ensures r.Ok? ==> forall e :: multiset(r.value)[e] == if e in NamespaceIndex(api.remote).value.Values then 1 else 0
      ensures old(namespaces).Some? ==> unchanged(this) && unchanged(api.cache)
      ensures namespaces == (if NamespaceIndex(api.remote).Ok? then Some(NamespaceIndex(api.remote).value) else old(namespaces))
      ensures groups == old(groups) && users == old(users) && lookupTable == old(lookupTable)
      ensures lookupLoaded == old(lookupLoaded) && usersFirst == old(usersFirst)
      ensures Touches(old(api.cache.store), api.cache.store, NamespacesKeys)
    {
      var index := GetNamespaces(now);
      if index.Err? {
        return Err(index.error), [];
      }
      order := Enumerate(index.value);
      EachValueOnce(index.value, order);
      r := Ok(SortByName(ValuesAt(index.value, order)));
    }

    /** `get_sorted_groups` (app.py:193-195): every group, sorted by name. */
    method GetSortedGroups(now: int) returns (r: Result<seq<Entity>>, order: seq<string>)
      requires Valid()
      modifies this, api.cache
      ensures Valid()
      ensures r.Ok? <==> GroupIndex(api.remote).Ok?
      ensures r.Err? ==> r.error == GroupIndex(api.remote).error
      ensures r.Ok? ==> Enumerates(order, GroupIndex(api.remote).value) &&
                        r.value == SortByName(ValuesAt(GroupIndex(api.remote).value, order))
      ensures r.Ok? ==> forall e :: multiset(r.value)[e] == if e in GroupIndex(api.remote).value.Values then 1 else 0
      ensures old(groups).Some? ==> unchanged(this) && unchanged(api.cache)
      ensures old(groups).None? && GroupIndex(api.remote).Ok? ==>
                groups == Some(GroupIndex(api.remote).value) && lookupTable == old(lookupTable) + GroupIndex(api.remote).value &&
                lookupLoaded == old(lookupLoaded) + 1
      ensures GroupIndex(api.remote).Err? ==> groups == old(groups) && lookupTable == old(lookupTable) && lookupLoaded == old(lookupLoaded)
      ensures namespaces == old(namespaces) && users == old(users) && usersFirst == old(usersFirst)
      ensures Touches(old(api.cache.store), api.cache.store, GroupsKeys)
    {
      var index := GetGroups(now);
      if index.Err? {
        return Err(index.error), [];
      }
      order := Enumerate(index.value);
      EachValueOnce(index.value, order);
      r := Ok(SortByName(ValuesAt(index.value, order)));
    }

    /** `get_sorted_users` (app.py:217-219): the users of the interactive-login domain,
        sorted by name. */
    method GetSortedUsers(now: int) returns (r: Result<seq<Entity>>, order: seq<string>)
      requires Valid()
      modifies this, api.cache
      ensures Valid()
      ensures r.Ok? <==> UserIndex(api.remote).Ok?
      ensures r.Err? ==> r.error == UserIndex(api.remote).error
      ensures r.Ok? ==> Enumerates(order, UserIndex(api.remote).value) &&
                        r.value == SortByName(Interactive(ValuesAt(UserIndex(api.remote).value, order)))
      ensures r.Ok? ==> forall e :: multiset(r.value)[e] == if e in UserIndex(api.remote).value.Values && LiveUser(e) then 1 else 0
      ensures old(users).Some? ==> unchanged(this) && unchanged(api.cache)
      ensures old(users).None? && UserIndex(api.remote).Ok? ==>
                users == Some(UserIndex(api.remote).value) && lookupTable == old(lookupTable) + UserIndex(api.remote).value &&
                lookupLoaded == old(lookupLoaded) + 1
      ensures UserIndex(api.remote).Err? ==> users == old(users) && lookupTable == old(lookupTable) && lookupLoaded == old(lookupLoaded)
      ensures namespaces == old(namespaces) && groups == old(groups)
      ensures usersFirst == if old(users).None? && UserIndex(api.remote).Ok? then old(groups).None? else old(usersFirst)
      ensures Touches(old(api.cache.store), api.cache.store, UsersKeys)
    {
      var index := GetUsers(now);
      if index.Err? {
        return Err(index.error), [];
      }
      order := Enumerate(index.value);
      EachValueOnce(index.value, order);
      r := Ok(SortByName(Interactive(ValuesAt(index.value, order))));
    }
  
    /** The list comprehension `[lookup(item[key]) for item in items]` with the `None`s
        dropped: one lookup per item, in order. */
    method ResolveEach(items: seq<Json>, key: string, now: int) returns (r: Result<seq<Entity>>)
      requires Valid()
      modifies this, api.cache
      ensures Valid() && usersFirst == old(usersFirst) && namespaces == old(namespaces)
      ensures r == ResolveItems(items, key, LoadAll(api.remote, usersFirst))
      ensures Touches(old(api.cache.store), api.cache.store, GroupsKeys + UsersKeys)
      ensures Kept(old(groups), groups) && Kept(old(users), users)
    {
      ghost var load := LoadAll(api.remote, usersFirst);
      var acc: seq<Entity> := [];
      PrependNothing(ResolveItems(items, key, load));
      assert items[0..] == items;
      for i := 0 to |items|
        invariant Valid() && usersFirst == old(usersFirst) && namespaces == old(namespaces)
        invariant ResolveItems(items, key, load) == Prepend(acc, ResolveItems(items[i..], key, load))
        invariant Touches(old(api.cache.store), api.cache.store, GroupsKeys + UsersKeys)
        invariant Kept(old(groups), groups) && Kept(old(users), users)
      {
        ResolveStep(items, key, load, i);
        var descriptor := StringField(items[i], key);
        if descriptor.Err? {
          return Err(descriptor.error);
        }
        ghost var before := api.cache.store;
        var found := Lookup(descriptor.value, now);
        TouchesChain(old(api.cache.store), before, api.cache.store, GroupsKeys + UsersKeys, GroupsKeys + UsersKeys, GroupsKeys + UsersKeys);
        if found.Err? {
          return Err(found.error);
        }
        assert load.Ok? && found.value == (if descriptor.value in load.value then Some(load.value[descriptor.value]) else None);
        var hit := if found.value.Some? then [found.value.value] else [];
        assert hit == Hit(load.value, descriptor.value);
        PrependTwice(acc, hit, ResolveItems(items[i + 1..], key, load));
        acc := acc + hit;
      }
      assert items[|items|..] == [];
      assert acc + [] == acc;
      r := Ok(acc);
      assert load == LoadAll(api.remote, usersFirst);
    }
  
    /** `get_entity_connections` (app.py:221-237): both connection lists of `descriptor`,
        resolved through the lookup table and sorted by name. */
    method GetEntityConnections(descriptor: string, now: int) returns (r: Result<Connections>)
      requires Valid()
      modifies this, api.cache
      ensures Valid() && usersFirst == old(usersFirst) && namespaces == old(namespaces)
      ensures r == ConnectionsOf(api.remote, LoadAll(api.remote, usersFirst), descriptor)
      ensures Touches(old(api.cache.store), api.cache.store, ConnectionKeys(descriptor))
      ensures Unpack(api.remote.Up(descriptor)).Err? ==> Touches(old(api.cache.store), api.cache.store, MembershipsKeys(descriptor))
      ensures Kept(old(groups), groups) && Kept(old(users), users)
    {
      var answers := FetchConnections(descriptor, now);
      if answers.Err? {
        TouchesChain(old(api.cache.store), api.cache.store, api.cache.store,
                     MembershipsKeys(descriptor) + MembersKeys(descriptor), {}, ConnectionKeys(descriptor));
        return Err(answers.error);
      }
      ghost var fetched := api.cache.store;
      r := ResolveConnections(answers.value.0, answers.value.1, now);
      TouchesChain(old(api.cache.store), fetched, api.cache.store,
                   MembershipsKeys(descriptor) + MembersKeys(descriptor), GroupsKeys + UsersKeys, ConnectionKeys(descriptor));
    }

    /** Lines 222-223 of `get_entity_connections`: the memberships answer is unpacked
        before the members answer is fetched. Only the cache changes. */
    method FetchConnections(descriptor: string, now: int) returns (r: Result<(Json, Json)>)
      requires Valid()
      modifies api.cache
      ensures Valid()
      ensures Unpack(api.remote.Up(descriptor)).Err? ==>
                r == Err(Unpack(api.remote.Up(descriptor)).error) && Touches(old(api.cache.store), api.cache.store, MembershipsKeys(descriptor))
      ensures Unpack(api.remote.Up(descriptor)).Ok? && Unpack(api.remote.Down(descriptor)).Err? ==>
                r == Err(Unpack(api.remote.Down(descriptor)).error)
      ensures Unpack(api.remote.Up(descriptor)).Ok? && Unpack(api.remote.Down(descriptor)).Ok? ==>
                r == Ok((Unpack(api.remote.Up(descriptor)).value, Unpack(api.remote.Down(descriptor)).value))
      ensures Touches(old(api.cache.store), api.cache.store, MembershipsKeys(descriptor) + MembersKeys(descriptor))
    {
      var upData := api.GetEntityMemberships(descriptor, now);
      var up := Unpack(upData);
      if up.Err? {
        TouchesChain(old(api.cache.store), api.cache.store, api.cache.store,
                     MembershipsKeys(descriptor), {}, MembershipsKeys(descriptor) + MembersKeys(descriptor));
        return Err(up.error);
      }
      ghost var afterUp := api.cache.store;
      var downData := api.GetEntityMembers(descriptor, now);
      TouchesChain(old(api.cache.store), afterUp, api.cache.store,
                   MembershipsKeys(descriptor), MembersKeys(descriptor), MembershipsKeys(descriptor) + MembersKeys(descriptor));
      var down := Unpack(downData);
      if down.Err? {
        return Err(down.error);
      }
      r := Ok((up.value, down.value));
    }

    /** Lines 227-237 of `get_entity_connections`: one lookup per item, containers first. */
    method ResolveConnections(up: Json, down: Json, now: int) returns (r: Result<Connections>)
      requires Valid()
      modifies this, api.cache
      ensures Valid() && usersFirst == old(usersFirst) && namespaces == old(namespaces)
      ensures r == ConnectionsFrom(up, down, LoadAll(api.remote, usersFirst))
      ensures Touches(old(api.cache.store), api.cache.store, GroupsKeys + UsersKeys)
      ensures Kept(old(groups), groups) && Kept(old(users), users)
    {
      var upItems := AsList(up);
      if upItems.Err? {
        return Err(upItems.error);
      }
      var containers := ResolveEach(upItems.value, "containerDescriptor", now);
      if containers.Err? {
        return Err(containers.error);
      }
      var downItems := AsList(down);
      if downItems.Err? {
        return Err(downItems.error);
      }
      ghost var between := api.cache.store;
      var members := ResolveEach(downItems.value, "memberDescriptor", now);
      TouchesChain(old(api.cache.store), between, api.cache.store, GroupsKeys + UsersKeys, GroupsKeys + UsersKeys, GroupsKeys + UsersKeys);
      if members.Err? {
        return Err(members.error);
      }
      r := Ok(Connections(SortByName(members.value), SortByName(containers.value)));
    }

    /** `parse_connection(e, rel, direct)` (app.py:243-252): files the tuple for `e` in the
        bucket of its type, then visits every connection of `e` along `rel` as indirect.
        `rank` is the witness that the graph along `rel` has no cycle. */
    method VisitOne(e: Entity, rel: Relation, ghost rank: map<string, nat>, tag: Tag, b: Buckets, now: int)
      returns (r: Result<Buckets>)
      requires Valid()
      requires Ranked(ConnOf(api.remote, usersFirst), rel, rank)
      requires e.HasDescriptor() && e.descriptor in rank
      modifies this, api.cache
      decreases rank[e.descriptor], 1
      ensures Valid() && usersFirst == old(usersFirst) && namespaces == old(namespaces)
      ensures r == Extend(b, Visit(ConnOf(api.remote, usersFirst), rel, rank, e, tag))
      ensures Kept(old(groups), groups) && Kept(old(users), users)
      ensures OnlyConnectionKeys(old(api.cache.store), api.cache.store)
    {
      var tuple := Related(e, rel, tag);
      var next := if e.User? then Buckets(b.users + [tuple], b.groups)
                  else if e.Group? then Buckets(b.users, b.groups + [tuple])
                  else b;
      ExtendOne(b, tuple);
      VisitStep(ConnOf(api.remote, usersFirst), rel, rank, e, tag, b);
      var c := GetEntityConnections(e.descriptor, now);
      ConnectionsInFrame(old(api.cache.store), old(api.cache.store), api.cache.store, e.descriptor);
      if c.Err? {
        return Err(c.error);
      }
      ghost var fetched := api.cache.store;
      r := VisitEach(Along(c.value, rel), rel, rank, rank[e.descriptor], Indirect, next, now);
      FrameChain(old(api.cache.store), fetched, api.cache.store);
    }

    /** The `for` loop of `parse_connection` over one connection list. */
    method VisitEach(es: seq<Entity>, rel: Relation, ghost rank: map<string, nat>, ghost bound: nat, tag: Tag, b: Buckets, now: int)
      returns (r: Result<Buckets>)
      requires Valid()
      requires Ranked(ConnOf(api.remote, usersFirst), rel, rank)
      requires Descends(es, rank, bound)
      modifies this, api.cache
      decreases bound, 0
      ensures Valid() && usersFirst == old(usersFirst) && namespaces == old(namespaces)
      ensures r == Extend(b, VisitAll(ConnOf(api.remote, usersFirst), rel, rank, es, bound, tag))
      ensures Kept(old(groups), groups) && Kept(old(users), users)
      ensures OnlyConnectionKeys(old(api.cache.store), api.cache.store)
    {
      ghost var conn := ConnOf(api.remote, usersFirst);
      var cur := b;
      assert es[0..] == es;
      for i := 0 to |es|
        invariant Valid() && usersFirst == old(usersFirst) && namespaces == old(namespaces)
        invariant Descends(es[i..], rank, bound)
        invariant Extend(b, VisitAll(conn, rel, rank, es, bound, tag)) == Extend(cur, VisitAll(conn, rel, rank, es[i..], bound, tag))
        invariant (old(groups).Some? ==> groups.Some?) && (old(users).Some? ==> users.Some?)
        invariant OnlyConnectionKeys(old(api.cache.store), api.cache.store)
      {
        VisitAllStep(conn, rel, rank, es, i, bound, tag, cur);
        ghost var before := api.cache.store;
        var step := VisitOne(es[i], rel, rank, tag, cur, now);
        FrameChain(old(api.cache.store), before, api.cache.store);
        if step.Err? {
          return step;
        }
        cur := step.value;
      }
      VisitAllDone(conn, rel, rank, es, bound, tag, cur);
      r := Ok(cur);
    }

    /** `get_related_entities` (app.py:239-260): the members closure, then the memberships
        closure, of `descriptor`, as the users and the groups buckets. */
    method GetRelatedEntities(descriptor: string, ghost down: map<string, nat>, ghost up: map<string, nat>, now: int)
      returns (r: Result<Buckets>)
      requires Valid()
      requires Ranked(ConnOf(api.remote, usersFirst), Members, down) && Ranked(ConnOf(api.remote, usersFirst), Memberships, up)
      requires descriptor in down && descriptor in up
      modifies this, api.cache
      ensures Valid() && usersFirst == old(usersFirst) && namespaces == old(namespaces)
      ensures r == RelatedEntities(ConnOf(api.remote, usersFirst), down, up, descriptor)
      ensures Kept(old(groups), groups) && Kept(old(users), users)
      ensures OnlyConnectionKeys(old(api.cache.store), api.cache.store)
    {
      ghost var conn := ConnOf(api.remote, usersFirst);
      var c := GetEntityConnections(descriptor, now);
      ConnectionsInFrame(old(api.cache.store), old(api.cache.store), api.cache.store, descriptor);
      if c.Err? {
        return Err(c.error);
      }
      assert conn(descriptor) == c;
      ghost var fetched := api.cache.store;
      var b := VisitEach(c.value.members, Members, down, down[descriptor], Direct, Buckets([], []), now);
      FrameChain(old(api.cache.store), fetched, api.cache.store);
      if b.Err? {
        return b;
      }
      ghost var between := api.cache.store;
      r := VisitEach(c.value.memberships, Memberships, up, up[descriptor], Direct, b.value, now);
      FrameChain(old(api.cache.store), between, api.cache.store);
      ghost var m := VisitAll(conn, Members, down, c.value.members, down[descriptor], Direct);
      ghost var u := VisitAll(conn, Memberships, up, c.value.memberships, up[descriptor], Direct);
      if u.Ok? {
        ExtendAppend(Buckets([], []), m.value, u.value);
      }
    }
  }
}
