/** The three entity variants (app.py:263-292), their ordering by name (app.py:58-59),
    the record parsing the index comprehensions do, and name-sorting. */
module Entities {
  import opened Wrappers
  import opened Json
  import StringOrder

  /** DevopsSecurityNamespace, DevopsGroup and DevopsUser as one tagged type. `name` is the
      namespace's "name" or the group's or user's "principalName". */
  datatype Entity =
    | Namespace(namespaceId: Json, name: string, actions: Json)
    | Group(descriptor: string, name: string, displayName: Json, description: Json)
    | User(descriptor: string, name: string, displayName: Json, domain: Json)
  {
    /** Only groups and users carry a descriptor (`DevopsEntity.descriptor` stays None
        for namespaces). */
    predicate HasDescriptor() {
      Group? || User?
    }
  }

  /** The domain `get_sorted_users` keeps (interactive human logins). */
  const LiveDomain: string := "Windows Live ID"

  /** Which collection a record comes from. */
  datatype Kind = NamespaceKind | GroupKind | UserKind

  predicate OfKind(e: Entity, kind: Kind) {
    match kind
    case NamespaceKind => e.Namespace?
    case GroupKind => e.Group?
    case UserKind => e.User?
  }

  /** The index key of an entity: the name of a namespace, the descriptor of a group or user. */
  function KeyOf(e: Entity): string {
    if e.Namespace? then e.name else e.descriptor
  }

  /** The fields a record of each kind must carry, in the order they are read. */
  function RequiredFields(kind: Kind): seq<string> {
    match kind
    case NamespaceKind => ["name", "namespaceId", "actions"]
    case GroupKind => ["descriptor", "principalName", "displayName", "description"]
    case UserKind => ["descriptor", "principalName", "displayName", "domain"]
  }

  /** The field that gives the index key, and the one that gives the entity's name. */
  function KeyField(kind: Kind): string {
    if kind == NamespaceKind then "name" else "descriptor"
  }

  function NameField(kind: Kind): string {
    if kind == NamespaceKind then "name" else "principalName"
  }

  /** A record every constructor read succeeds on. */
  predicate WellFormed(kind: Kind, record: Json) {
    && record.JObj?
    && (forall k | k in RequiredFields(kind) :: k in record.fields)
    && record.fields[KeyField(kind)].JStr?
    && record.fields[NameField(kind)].JStr?
  }

  /** One step of the index comprehensions (app.py:158-161, 177-180, 200-203): the key
      expression is read first, then the constructor reads its fields in order. */
  function ParseRecord(kind: Kind, record: Json): (r: Result<(string, Entity)>)
    ensures r.Ok? <==> WellFormed(kind, record)
    ensures r.Ok? ==> OfKind(r.value.1, kind) && KeyOf(r.value.1) == r.value.0
    ensures r.Ok? ==> JStr(r.value.0) == record.fields[KeyField(kind)]
    ensures r.Ok? ==> JStr(r.value.1.name) == record.fields[NameField(kind)]
    ensures r.Ok? && kind == NamespaceKind ==>
              r.value.1.namespaceId == record.fields["namespaceId"] &&
              r.value.1.actions == record.fields["actions"]
    ensures r.Ok? && kind != NamespaceKind ==> r.value.1.displayName == record.fields["displayName"]
    ensures r.Ok? && kind == GroupKind ==> r.value.1.description == record.fields["description"]
    ensures r.Ok? && kind == UserKind ==> r.value.1.domain == record.fields["domain"]
  {
    match kind
    case NamespaceKind =>
      var key :- StringField(record, "name");
      var id :- Field(record, "namespaceId");
      var name := key;  // the constructor reads "name" again and gets the same string
      var actions :- Field(record, "actions");
      Ok((key, Namespace(id, name, actions)))
    case GroupKind =>
      var key :- StringField(record, "descriptor");
      var descriptor := key;  // the constructor reads "descriptor" again
      var name :- StringField(record, "principalName");
      var display :- Field(record, "displayName");
      var description :- Field(record, "description");
      Ok((key, Group(descriptor, name, display, description)))
    case UserKind =>
      var key :- StringField(record, "descriptor");
      var descriptor := key;  // the constructor reads "descriptor" again
      var name :- StringField(record, "principalName");
      var display :- Field(record, "displayName");
      var domain :- Field(record, "domain");
      Ok((key, User(descriptor, name, display, domain)))
  }

  /** Every entry is an entity of the kind, filed under its own key. */
  ghost predicate IndexOf(m: map<string, Entity>, kind: Kind) {
    forall k | k in m :: OfKind(m[k], kind) && KeyOf(m[k]) == k
  }

  /** The keys the records carry. */
  function RecordKeys(kind: Kind, items: seq<Json>): set<string>
    requires forall i | 0 <= i < |items| :: WellFormed(kind, items[i])
  {
    if items == [] then {} else {ParseRecord(kind, items[0]).value.0} + RecordKeys(kind, items[1..])
  }

  /** The dict comprehension `{key: Entity(record) for record in items}` continued from
      `acc`: records are inserted in order, so a later record with the same key replaces
      an earlier one; the first record that fails to parse aborts the whole build. */
  function BuildIndex(acc: map<string, Entity>, items: seq<Json>, kind: Kind): (r: Result<map<string, Entity>>)
    ensures r.Ok? <==> forall i | 0 <= i < |items| :: WellFormed(kind, items[i])
    ensures r.Ok? ==> r.value.Keys == acc.Keys + RecordKeys(kind, items)
    decreases |items|
  {
    if items == [] then Ok(acc)
    else
      var entry :- ParseRecord(kind, items[0]);
      var r := BuildIndex(acc[entry.0 := entry.1], items[1..], kind);
      assert forall i | 1 <= i < |items| :: items[i] == items[1..][i - 1];
      r
  }

  /** The value filed under a key is the entity of the LAST record carrying that key. */
  lemma {:induction false} LastRecordWins(acc: map<string, Entity>, items: seq<Json>, kind: Kind, i: nat)
    requires BuildIndex(acc, items, kind).Ok?
    requires i < |items|
    requires forall j | i < j < |items| :: ParseRecord(kind, items[j]).value.0 != ParseRecord(kind, items[i]).value.0
    ensures var m, entry := BuildIndex(acc, items, kind).value, ParseRecord(kind, items[i]).value;
            entry.0 in m && m[entry.0] == entry.1
    decreases |items|
  {
    var entry := ParseRecord(kind, items[0]).value;
    assert BuildIndex(acc, items, kind) == BuildIndex(acc[entry.0 := entry.1], items[1..], kind);
    if i == 0 {
      forall j | 0 <= j < |items[1..]| ensures ParseRecord(kind, items[1..][j]).value.0 != entry.0 {
        assert items[1..][j] == items[j + 1];
      }
      BuildKeepsAbsent(acc[entry.0 := entry.1], items[1..], kind, entry.0);
    } else {
      assert items[1..][i - 1] == items[i];
      forall j | i - 1 < j < |items[1..]|
        ensures ParseRecord(kind, items[1..][j]).value.0 != ParseRecord(kind, items[1..][i - 1]).value.0
      {
        assert items[1..][j] == items[j + 1];
      }
      LastRecordWins(acc[entry.0 := entry.1], items[1..], kind, i - 1);
    }
  }

  /** A key that no record carries keeps its value from `acc`. */
  lemma {:induction false} BuildKeepsAbsent(acc: map<string, Entity>, items: seq<Json>, kind: Kind, k: string)
    requires BuildIndex(acc, items, kind).Ok?
    requires k in acc
    requires forall j | 0 <= j < |items| :: ParseRecord(kind, items[j]).value.0 != k
    ensures k in BuildIndex(acc, items, kind).value && BuildIndex(acc, items, kind).value[k] == acc[k]
    decreases |items|
  {
    if items != [] {
      var entry := ParseRecord(kind, items[0]).value;
      forall j | 0 <= j < |items[1..]| ensures ParseRecord(kind, items[1..][j]).value.0 != k {
        assert items[1..][j] == items[j + 1];
      }
      BuildKeepsAbsent(acc[entry.0 := entry.1], items[1..], kind, k);
    }
  }

  /** Building from a well-formed accumulator yields an index of the kind. */
  lemma {:induction false} BuildIsIndex(acc: map<string, Entity>, items: seq<Json>, kind: Kind)
    requires IndexOf(acc, kind)
    requires BuildIndex(acc, items, kind).Ok?
    ensures IndexOf(BuildIndex(acc, items, kind).value, kind)
    decreases |items|
  {
    if items != [] {
      var entry := ParseRecord(kind, items[0]).value;
      BuildIsIndex(acc[entry.0 := entry.1], items[1..], kind);
    }
  }

  /** `DevopsEntity.__lt__`: entities compare by name only. */
  predicate Before(a: Entity, b: Entity) {
    StringOrder.Less(a.name, b.name)
  }

  /** What `sorted` guarantees with `__lt__`: no entity is below one placed ahead of it. */
  ghost predicate SortedByName(s: seq<Entity>) {
    forall i, j | 0 <= i < j < |s| :: !Before(s[j], s[i])
  }

  /** Inserts `x` ahead of the first entity not below it, so it stays ahead of equal names. */
  function Insert(x: Entity, s: seq<Entity>): (r: seq<Entity>)
    requires SortedByName(s)
    ensures SortedByName(r)
    ensures multiset(r) == multiset(s) + multiset{x}
  {
    if s == [] then [x]
    else if !Before(s[0], x) then
      forall j | 0 <= j < |s| ensures StringOrder.AtMost(x.name, s[j].name) {
        if j > 0 {
          StringOrder.AtMostTransitive(x.name, s[0].name, s[j].name);
        }
      }
      [x] + s
    else
      var rest := Insert(x, s[1..]);
      assert multiset(s) == multiset{s[0]} + multiset(s[1..]) by {
        assert s == [s[0]] + s[1..];
      }
      forall j | 0 <= j < |rest| ensures !Before(rest[j], s[0]) {
        assert rest[j] in multiset(rest);
        if rest[j] == x {
          StringOrder.LessAsymmetric(s[0].name, x.name);
        } else {
          assert rest[j] in multiset(s[1..]);
          var k :| 0 <= k < |s[1..]| && s[1..][k] == rest[j];
          assert s[k + 1] == rest[j];
        }
      }
      [s[0]] + rest
  }

  /** `sorted(s)` over entities: a stable insertion sort by name. */
  function SortByName(s: seq<Entity>): (r: seq<Entity>)
    ensures SortedByName(r)
    ensures multiset(r) == multiset(s)
  {
    if s == [] then []
    else
      assert s == [s[0]] + s[1..];
      Insert(s[0], SortByName(s[1..]))
  }

  /** The entities filed under `keys`, in that order: `[m[key] for key in keys]`. */
  function ValuesAt(m: map<string, Entity>, keys: seq<string>): (r: seq<Entity>)
    requires forall i | 0 <= i < |keys| :: keys[i] in m
    ensures |r| == |keys|
    ensures forall i | 0 <= i < |keys| :: r[i] == m[keys[i]]
  {
    if keys == [] then [] else [m[keys[0]]] + ValuesAt(m, keys[1..])
  }

  /** `keys` lists every key of `m` exactly once: an iteration order of the dict. */
  ghost predicate Enumerates<V>(keys: seq<string>, m: map<string, V>) {
    && (forall i, j | 0 <= i < j < |keys| :: keys[i] != keys[j])
    && (forall k :: k in keys <==> k in m)
  }

  /** Picks an iteration order of a map. Python dicts keep insertion order; this model does
      not record it, so any order may come out. */
  method Enumerate<V>(m: map<string, V>) returns (keys: seq<string>)
    ensures Enumerates(keys, m)
  {
    keys := [];
    var rest := m.Keys;
    while rest != {}
      invariant forall i, j | 0 <= i < j < |keys| :: keys[i] != keys[j]
      invariant forall k :: k in keys <==> k in m && k !in rest
      invariant rest <= m.Keys
      decreases rest
    {
      var k :| k in rest;
      keys := keys + [k];
      rest := rest - {k};
    }
  }

  /** Each entity of a mapping keyed by its entities' own keys appears in the projection
      along distinct keys once when its key is listed, and not at all otherwise. */
  lemma {:induction false} ValuesAtCount(m: map<string, Entity>, keys: seq<string>, e: Entity)
    requires forall k | k in m :: KeyOf(m[k]) == k
    requires forall i | 0 <= i < |keys| :: keys[i] in m
    requires forall i, j | 0 <= i < j < |keys| :: keys[i] != keys[j]
    ensures multiset(ValuesAt(m, keys))[e] == if KeyOf(e) in keys && KeyOf(e) in m && m[KeyOf(e)] == e then 1 else 0
  {
    if keys != [] {
      var rest := keys[1..];
      assert forall i | 0 <= i < |rest| :: rest[i] == keys[i + 1];
      assert forall i | 0 <= i < |rest| :: rest[i] != keys[0];
      ValuesAtCount(m, rest, e);
      assert ValuesAt(m, keys) == [m[keys[0]]] + ValuesAt(m, rest);
      assert KeyOf(e) in keys <==> KeyOf(e) == keys[0] || KeyOf(e) in rest by {
        assert keys == [keys[0]] + rest;
      }
    }
  }

  /** Listing a keyed mapping in an iteration order gives each of its entities exactly once. */
  lemma EachValueOnce(m: map<string, Entity>, keys: seq<string>)
    requires forall k | k in m :: KeyOf(m[k]) == k
    requires Enumerates(keys, m)
    ensures forall e :: multiset(ValuesAt(m, keys))[e] == if e in m.Values then 1 else 0
  {
    forall e ensures multiset(ValuesAt(m, keys))[e] == if e in m.Values then 1 else 0 {
      ValuesAtCount(m, keys, e);
      if e in m.Values {
        var k :| k in m && m[k] == e;
      }
    }
  }

  /** The users `get_sorted_users` keeps: those of the interactive-login domain. */
  predicate LiveUser(e: Entity) {
    e.User? && e.domain == JStr(LiveDomain)
  }

  /** The user filter of `get_sorted_users` (app.py:219): keeps each interactive-login user
      as often as it occurs, drops every other entity, and keeps the order. */
  function Interactive(s: seq<Entity>): (r: seq<Entity>)
    ensures forall e :: e in r <==> e in s && LiveUser(e)
    ensures forall e :: multiset(r)[e] == if LiveUser(e) then multiset(s)[e] else 0
    ensures |r| <= |s|
  {
    if s == [] then []
    else
      assert s == [s[0]] + s[1..];
      (if LiveUser(s[0]) then [s[0]] else []) + Interactive(s[1..])
  }
}
