/** The transitive closure of `get_related_entities` (app.py:239-260), stated over any
    connection function: `conn(d)` is what `get_entity_connections(d)` returns. */
module Closure {
  import opened Wrappers
  import opened Json
  import opened Entities

  /** The two name-sorted lists `get_entity_connections` returns. */
  datatype Connections = Connections(members: seq<Entity>, memberships: seq<Entity>)

  datatype Relation = Members | Memberships
  datatype Tag = Direct | Indirect

  /** The tuple `(entity, relation, 'direct' | 'indirect')`. */
  datatype Related = Related(entity: Entity, relation: Relation, tag: Tag)

  /** The `users` and `groups` lists the traversal appends to. */
  datatype Buckets = Buckets(users: seq<Related>, groups: seq<Related>)

  function Along(c: Connections, rel: Relation): seq<Entity> {
    if rel == Members then c.members else c.memberships
  }

  /** Each entity has a descriptor of rank below `bound`. */
  ghost predicate Descends(es: seq<Entity>, rank: map<string, nat>, bound: nat) {
    forall i | 0 <= i < |es| :: es[i].HasDescriptor() && es[i].descriptor in rank && rank[es[i].descriptor] < bound
  }

  /** The graph along `rel` is acyclic: every edge from a ranked descriptor leads to one of
      smaller rank. The traversal has no visited set, so this is what makes it finite. */
  ghost predicate Ranked(conn: string -> Result<Connections>, rel: Relation, rank: map<string, nat>) {
    forall d | d in rank && conn(d).Ok? :: Descends(Along(conn(d).value, rel), rank, rank[d])
  }

  /** `parse_connection(e, rel, direct)`: the tuple for `e`, then everything reached from
      `e` along `rel`, depth first; the first failing connection lookup fails it all. */
  function Visit(conn: string -> Result<Connections>, rel: Relation, rank: map<string, nat>, e: Entity, tag: Tag): Result<seq<Related>>
    requires Ranked(conn, rel, rank)
    requires e.HasDescriptor() && e.descriptor in rank
    decreases rank[e.descriptor], 1
  {
    var c :- conn(e.descriptor);
    var below :- VisitAll(conn, rel, rank, Along(c, rel), rank[e.descriptor], Indirect);
    Ok([Related(e, rel, tag)] + below)
  }

  /** The `for` loop over one connection list, each entity visited in turn. */
  function VisitAll(conn: string -> Result<Connections>, rel: Relation, rank: map<string, nat>, es: seq<Entity>, bound: nat, tag: Tag): Result<seq<Related>>
    requires Ranked(conn, rel, rank)
    requires Descends(es, rank, bound)
    decreases bound, 0, |es|
  {
    if es == [] then Ok([])
    else
      var first :- Visit(conn, rel, rank, es[0], tag);
      var rest :- VisitAll(conn, rel, rank, es[1..], bound, tag);
      Ok(first + rest)
  }

  function UsersOf(t: seq<Related>): (r: seq<Related>)
    ensures forall x :: x in r <==> x in t && x.entity.User?
  {
    if t == [] then [] else (if t[0].entity.User? then [t[0]] else []) + UsersOf(t[1..])
  }

  function GroupsOf(t: seq<Related>): (r: seq<Related>)
    ensures forall x :: x in r <==> x in t && x.entity.Group?
  {
    if t == [] then [] else (if t[0].entity.Group? then [t[0]] else []) + GroupsOf(t[1..])
  }

  /** Appending the tuples of `t` to the buckets, each by its entity's type. */
  function Extend(b: Buckets, t: Result<seq<Related>>): Result<Buckets> {
    var s :- t;
    Ok(Buckets(b.users + UsersOf(s), b.groups + GroupsOf(s)))
  }

  /** Every tuple of the closure: the members closure first, then the memberships one. */
  function Trace(conn: string -> Result<Connections>, down: map<string, nat>, up: map<string, nat>, d: string): Result<seq<Related>>
    requires Ranked(conn, Members, down) && Ranked(conn, Memberships, up)
    requires d in down && d in up
  {
    var c :- conn(d);
    var m :- VisitAll(conn, Members, down, c.members, down[d], Direct);
    var u :- VisitAll(conn, Memberships, up, c.memberships, up[d], Direct);
    Ok(m + u)
  }

  /** `get_related_entities(d)`: the closure sorted into the users and groups buckets. */
  function RelatedEntities(conn: string -> Result<Connections>, down: map<string, nat>, up: map<string, nat>, d: string): Result<Buckets>
    requires Ranked(conn, Members, down) && Ranked(conn, Memberships, up)
    requires d in down && d in up
  {
    Extend(Buckets([], []), Trace(conn, down, up, d))
  }

  /** The entities of the tuples tagged direct, in order. */
  function Directs(t: seq<Related>): seq<Entity> {
    if t == [] then [] else (if t[0].tag == Direct then [t[0].entity] else []) + Directs(t[1..])
  }

  /** `child` is one of `parent`'s connections along `rel`. */
  ghost predicate IsChild(conn: string -> Result<Connections>, rel: Relation, parent: Entity, child: Entity) {
    parent.HasDescriptor() && conn(parent.descriptor).Ok? && child in Along(conn(parent.descriptor).value, rel)
  }

  /** Every tuple's connections along `rel` appear later in the trace, tagged indirect. */
  ghost predicate Closed(conn: string -> Result<Connections>, rel: Relation, t: seq<Related>) {
    forall i, c | 0 <= i < |t| && IsChild(conn, rel, t[i].entity, c) ::
      exists j | i < j < |t| :: t[j].entity == c && t[j].tag == Indirect
  }

  /** Every tuple is one of `heads` with tag `tag`, or a connection of an earlier tuple. */
  ghost predicate Justified(conn: string -> Result<Connections>, rel: Relation, t: seq<Related>, heads: seq<Entity>, tag: Tag) {
    forall j | 0 <= j < |t| ::
      (t[j].entity in heads && t[j].tag == tag) ||
      exists i | 0 <= i < j :: IsChild(conn, rel, t[i].entity, t[j].entity)
  }

  /** The shape of one visit: the visited entity first with the given tag, everything below
      it indirect; every tuple carries the relation and an entity with a descriptor, and
      every tuple's connections were looked up. */
  ghost predicate WellTagged(conn: string -> Result<Connections>, rel: Relation, t: seq<Related>, tag: Tag, heads: seq<Entity>) {
    && Tuples(conn, rel, t)
    && Directs(t) == (if tag == Direct then heads else [])
    && Closed(conn, rel, t)
    && Justified(conn, rel, t, heads, tag)
  }

  lemma {:induction false} DirectsAppend(a: seq<Related>, b: seq<Related>)
    ensures Directs(a + b) == Directs(a) + Directs(b)
  {
    if a != [] {
      assert (a + b)[1..] == a[1..] + b;
      DirectsAppend(a[1..], b);
    } else {
      assert a + b == b;
    }
  }

  lemma {:induction false} UsersOfAppend(a: seq<Related>, b: seq<Related>)
    ensures UsersOf(a + b) == UsersOf(a) + UsersOf(b)
  {
    if a != [] {
      assert (a + b)[1..] == a[1..] + b;
      UsersOfAppend(a[1..], b);
    } else {
      assert a + b == b;
    }
  }

  lemma {:induction false} GroupsOfAppend(a: seq<Related>, b: seq<Related>)
    ensures GroupsOf(a + b) == GroupsOf(a) + GroupsOf(b)
  {
    if a != [] {
      assert (a + b)[1..] == a[1..] + b;
      GroupsOfAppend(a[1..], b);
    } else {
      assert a + b == b;
    }
  }

  /** Appending a concatenation is appending its two halves in turn. */
  lemma ExtendAppend(b: Buckets, s: seq<Related>, t: seq<Related>)
    ensures Extend(b, Ok(s + t)) == Extend(Extend(b, Ok(s)).value, Ok(t))
  {
    UsersOfAppend(s, t);
    GroupsOfAppend(s, t);
    assert b.users + UsersOf(s) + UsersOf(t) == b.users + (UsersOf(s) + UsersOf(t));
    assert b.groups + GroupsOf(s) + GroupsOf(t) == b.groups + (GroupsOf(s) + GroupsOf(t));
  }

  /** The traversal of a list from position `i` on, seen through the buckets: the visit
      of `es[i]`, then the rest's; a failing visit of `es[i]` fails the whole. */
  lemma VisitAllStep(conn: string -> Result<Connections>, rel: Relation, rank: map<string, nat>,
                     es: seq<Entity>, i: nat, bound: nat, tag: Tag, b: Buckets)
    requires Ranked(conn, rel, rank)
    requires i < |es| && Descends(es[i..], rank, bound)
    ensures Descends(es[i + 1..], rank, bound) && es[i].HasDescriptor() && es[i].descriptor in rank
    ensures Visit(conn, rel, rank, es[i], tag).Err? ==>
              Extend(b, VisitAll(conn, rel, rank, es[i..], bound, tag)) == Extend(b, Visit(conn, rel, rank, es[i], tag))
    ensures Visit(conn, rel, rank, es[i], tag).Ok? ==>
              Extend(b, VisitAll(conn, rel, rank, es[i..], bound, tag))
              == Extend(Extend(b, Visit(conn, rel, rank, es[i], tag)).value, VisitAll(conn, rel, rank, es[i + 1..], bound, tag))
  {
    assert es[i..][0] == es[i] && es[i..][1..] == es[i + 1..];
    var first := Visit(conn, rel, rank, es[i], tag);
    var rest := VisitAll(conn, rel, rank, es[i + 1..], bound, tag);
    if first.Ok? && rest.Ok? {
      ExtendAppend(b, first.value, rest.value);
    }
  }

  /** Visiting the empty rest of a list appends nothing. */
  lemma VisitAllDone(conn: string -> Result<Connections>, rel: Relation, rank: map<string, nat>,
                     es: seq<Entity>, bound: nat, tag: Tag, b: Buckets)
    requires Ranked(conn, rel, rank)
    ensures Descends(es[|es|..], rank, bound)
    ensures Extend(b, VisitAll(conn, rel, rank, es[|es|..], bound, tag)) == Ok(b)
  {
    assert es[|es|..] == [];
    assert b.users + UsersOf([]) == b.users && b.groups + GroupsOf([]) == b.groups;
  }

  /** Filing one tuple puts it at the end of the bucket of its entity's type. */
  lemma ExtendOne(b: Buckets, x: Related)
    ensures Extend(b, Ok([x])) == Ok(if x.entity.User? then Buckets(b.users + [x], b.groups)
                                     else if x.entity.Group? then Buckets(b.users, b.groups + [x])
                                     else b)
  {
    var t := [x];
    assert t[0] == x && t[1..] == [];
    assert UsersOf(t) == (if x.entity.User? then [x] else []) + UsersOf([]);
    assert GroupsOf(t) == (if x.entity.Group? then [x] else []) + GroupsOf([]);
    assert UsersOf([]) == [] && GroupsOf([]) == [];
    assert b.users + ([x] + []) == b.users + [x] && b.groups + ([x] + []) == b.groups + [x];
    assert b.users + ([] + []) == b.users && b.groups + ([] + []) == b.groups;
  }

  /** One visit seen through the buckets: the tuple of `e` is filed, then the visit of its
      connections along `rel`; a failing lookup of `e` fails the visit. */
  lemma VisitStep(conn: string -> Result<Connections>, rel: Relation, rank: map<string, nat>, e: Entity, tag: Tag, b: Buckets)
    requires Ranked(conn, rel, rank)
    requires e.HasDescriptor() && e.descriptor in rank
    ensures conn(e.descriptor).Err? ==> Extend(b, Visit(conn, rel, rank, e, tag)) == Err(conn(e.descriptor).error)
    ensures conn(e.descriptor).Ok? ==>
              Extend(b, Visit(conn, rel, rank, e, tag))
              == Extend(Extend(b, Ok([Related(e, rel, tag)])).value,
                        VisitAll(conn, rel, rank, Along(conn(e.descriptor).value, rel), rank[e.descriptor], Indirect))
  {
    if conn(e.descriptor).Ok? {
      var below := VisitAll(conn, rel, rank, Along(conn(e.descriptor).value, rel), rank[e.descriptor], Indirect);
      if below.Ok? {
        ExtendAppend(b, [Related(e, rel, tag)], below.value);
      }
    }
  }

  /** Prepending the visited entity keeps the trace closed when all its connections are
      already in the trace below it. */
  lemma ClosedCons(conn: string -> Result<Connections>, rel: Relation, x: Related, below: seq<Related>)
    requires Closed(conn, rel, below)
    requires forall c | IsChild(conn, rel, x.entity, c) :: exists j | 0 <= j < |below| :: below[j].entity == c && below[j].tag == Indirect
    ensures Closed(conn, rel, [x] + below)
  {
    var t := [x] + below;
    forall i, c | 0 <= i < |t| && IsChild(conn, rel, t[i].entity, c)
      ensures exists j | i < j < |t| :: t[j].entity == c && t[j].tag == Indirect
    {
      if i == 0 {
        var j :| 0 <= j < |below| && below[j].entity == c && below[j].tag == Indirect;
        assert t[j + 1] == below[j];
      } else {
        assert t[i] == below[i - 1];
        var j :| i - 1 < j < |below| && below[j].entity == c && below[j].tag == Indirect;
        assert t[j + 1] == below[j];
      }
    }
  }

  lemma ClosedAppend(conn: string -> Result<Connections>, rel: Relation, a: seq<Related>, b: seq<Related>)
    requires Closed(conn, rel, a) && Closed(conn, rel, b)
    ensures Closed(conn, rel, a + b)
  {
    var t := a + b;
    forall i, c | 0 <= i < |t| && IsChild(conn, rel, t[i].entity, c)
      ensures exists j | i < j < |t| :: t[j].entity == c && t[j].tag == Indirect
    {
      if i < |a| {
        assert t[i] == a[i];
        var j :| i < j < |a| && a[j].entity == c && a[j].tag == Indirect;
        assert t[j] == a[j];
      } else {
        assert t[i] == b[i - |a|];
        var j :| i - |a| < j < |b| && b[j].entity == c && b[j].tag == Indirect;
        assert t[j + |a|] == b[j];
      }
    }
  }

  /** The shape of a visit and of a visit of a whole list, by mutual induction. */
  lemma {:induction false} VisitShape(conn: string -> Result<Connections>, rel: Relation, rank: map<string, nat>, e: Entity, tag: Tag)
    requires Ranked(conn, rel, rank)
    requires e.HasDescriptor() && e.descriptor in rank
    requires Visit(conn, rel, rank, e, tag).Ok?
    ensures var t := Visit(conn, rel, rank, e, tag).value;
            |t| > 0 && t[0] == Related(e, rel, tag) && WellTagged(conn, rel, t, tag, [e])
    decreases rank[e.descriptor], 1
  {
    var c := conn(e.descriptor).value;
    var children := Along(c, rel);
    VisitAllShape(conn, rel, rank, children, rank[e.descriptor], Indirect);
    var below := VisitAll(conn, rel, rank, children, rank[e.descriptor], Indirect).value;
    var x := Related(e, rel, tag);
    assert [x] + below == Visit(conn, rel, rank, e, tag).value;
    forall child | IsChild(conn, rel, e, child)
      ensures exists j | 0 <= j < |below| :: below[j].entity == child && below[j].tag == Indirect
    {
      VisitAllCovers(conn, rel, rank, children, rank[e.descriptor], Indirect, child);
    }
    ConsTuples(conn, rel, x, below, children);
    ConsDirects(conn, rel, x, below, children);
    ClosedCons(conn, rel, x, below);
    ConsJustified(conn, rel, x, below, children);
  }

  /* The four parts of `WellTagged` for a visit, each in a lemma of its own: proved
     together, the quantifiers of `Closed` and `Justified` make the proof search blow up. */

  lemma ConsTuples(conn: string -> Result<Connections>, rel: Relation, x: Related, below: seq<Related>, children: seq<Entity>)
    requires x.relation == rel && x.entity.HasDescriptor() && conn(x.entity.descriptor).Ok?
    requires WellTagged(conn, rel, below, Indirect, children)
    ensures Tuples(conn, rel, [x] + below)
  {
    TuplesAppend(conn, rel, [x], below);
  }

  lemma ConsDirects(conn: string -> Result<Connections>, rel: Relation, x: Related, below: seq<Related>, children: seq<Entity>)
    requires WellTagged(conn, rel, below, Indirect, children)
    ensures Directs([x] + below) == (if x.tag == Direct then [x.entity] else [])
  {
    DirectsAppend([x], below);
    assert [x][1..] == [];
  }

  lemma ConsJustified(conn: string -> Result<Connections>, rel: Relation, x: Related, below: seq<Related>, children: seq<Entity>)
    requires x.entity.HasDescriptor() && conn(x.entity.descriptor).Ok? && children == Along(conn(x.entity.descriptor).value, rel)
    requires WellTagged(conn, rel, below, Indirect, children)
    ensures Justified(conn, rel, [x] + below, [x.entity], x.tag)
  {
    JustifiedCons(conn, rel, x, below, children);
  }

  lemma {:induction false} VisitAllShape(conn: string -> Result<Connections>, rel: Relation, rank: map<string, nat>, es: seq<Entity>, bound: nat, tag: Tag)
    requires Ranked(conn, rel, rank)
    requires Descends(es, rank, bound)
    requires VisitAll(conn, rel, rank, es, bound, tag).Ok?
    ensures WellTagged(conn, rel, VisitAll(conn, rel, rank, es, bound, tag).value, tag, es)
    decreases bound, 0, |es|
  {
    if es != [] {
      VisitShape(conn, rel, rank, es[0], tag);
      assert Descends(es[1..], rank, bound);
      VisitAllShape(conn, rel, rank, es[1..], bound, tag);
      var first := Visit(conn, rel, rank, es[0], tag).value;
      var rest := VisitAll(conn, rel, rank, es[1..], bound, tag).value;
      assert first + rest == VisitAll(conn, rel, rank, es, bound, tag).value;
      WellTaggedAppend(conn, rel, first, rest, es, tag);
    }
  }

  lemma WellTaggedAppend(conn: string -> Result<Connections>, rel: Relation, first: seq<Related>, rest: seq<Related>, es: seq<Entity>, tag: Tag)
    requires es != []
    requires WellTagged(conn, rel, first, tag, [es[0]])
    requires WellTagged(conn, rel, rest, tag, es[1..])
    ensures WellTagged(conn, rel, first + rest, tag, es)
  {
    AppendedTuples(conn, rel, first, rest, es, tag);
    AppendedDirects(conn, rel, first, rest, es, tag);
    AppendedClosed(conn, rel, first, rest, es, tag);
    AppendedJustified(conn, rel, first, rest, es, tag);
  }

  /* The four parts of `WellTaggedAppend`, each proved on its own: together in one proof
     the quantifiers of `Closed` and `Justified` feed each other. */

  lemma AppendedTuples(conn: string -> Result<Connections>, rel: Relation, first: seq<Related>, rest: seq<Related>, es: seq<Entity>, tag: Tag)
    requires es != []
    requires WellTagged(conn, rel, first, tag, [es[0]]) && WellTagged(conn, rel, rest, tag, es[1..])
    ensures Tuples(conn, rel, first + rest)
  {
    TuplesAppend(conn, rel, first, rest);
  }

  lemma AppendedDirects(conn: string -> Result<Connections>, rel: Relation, first: seq<Related>, rest: seq<Related>, es: seq<Entity>, tag: Tag)
    requires es != []
    requires WellTagged(conn, rel, first, tag, [es[0]]) && WellTagged(conn, rel, rest, tag, es[1..])
    ensures Directs(first + rest) == (if tag == Direct then es else [])
  {
    DirectsAppend(first, rest);
    assert es == [es[0]] + es[1..];
  }

  lemma AppendedClosed(conn: string -> Result<Connections>, rel: Relation, first: seq<Related>, rest: seq<Related>, es: seq<Entity>, tag: Tag)
    requires es != []
    requires WellTagged(conn, rel, first, tag, [es[0]]) && WellTagged(conn, rel, rest, tag, es[1..])
    ensures Closed(conn, rel, first + rest)
  {
    ClosedAppend(conn, rel, first, rest);
  }

  lemma AppendedJustified(conn: string -> Result<Connections>, rel: Relation, first: seq<Related>, rest: seq<Related>, es: seq<Entity>, tag: Tag)
    requires es != []
    requires WellTagged(conn, rel, first, tag, [es[0]]) && WellTagged(conn, rel, rest, tag, es[1..])
    ensures Justified(conn, rel, first + rest, es, tag)
  {
    JustifiedAppend(conn, rel, first, rest, es, tag);
  }

  /** Every tuple of a trace carries `rel` and an entity whose connections were looked up. */
  ghost predicate Tuples(conn: string -> Result<Connections>, rel: Relation, t: seq<Related>) {
    && (forall i | 0 <= i < |t| :: t[i].relation == rel && t[i].entity.HasDescriptor())
    && (forall i | 0 <= i < |t| :: conn(t[i].entity.descriptor).Ok?)
  }

  lemma TuplesAppend(conn: string -> Result<Connections>, rel: Relation, first: seq<Related>, rest: seq<Related>)
    requires Tuples(conn, rel, first) && Tuples(conn, rel, rest)
    ensures Tuples(conn, rel, first + rest)
  {
    var t := first + rest;
    forall i | 0 <= i < |t|
      ensures t[i].relation == rel && t[i].entity.HasDescriptor() && conn(t[i].entity.descriptor).Ok?
    {
      if i < |first| {
        assert t[i] == first[i];
      } else {
        assert t[i] == rest[i - |first|];
      }
    }
  }

  /** Every entity of the list is visited, with the list's tag. */
  lemma {:induction false} VisitAllCovers(conn: string -> Result<Connections>, rel: Relation, rank: map<string, nat>, es: seq<Entity>, bound: nat, tag: Tag, x: Entity)
    requires Ranked(conn, rel, rank)
    requires Descends(es, rank, bound)
    requires VisitAll(conn, rel, rank, es, bound, tag).Ok?
    requires x in es
    ensures var t := VisitAll(conn, rel, rank, es, bound, tag).value;
            exists j | 0 <= j < |t| :: t[j].entity == x && t[j].tag == tag
    decreases |es|
  {
    var first := Visit(conn, rel, rank, es[0], tag).value;
    var rest := VisitAll(conn, rel, rank, es[1..], bound, tag).value;
    var t := first + rest;
    assert t == VisitAll(conn, rel, rank, es, bound, tag).value;
    if x == es[0] {
      assert first[0] == Related(es[0], rel, tag);
      assert t[0] == first[0];
    } else {
      assert Descends(es[1..], rank, bound);
      VisitAllCovers(conn, rel, rank, es[1..], bound, tag, x);
      var j :| 0 <= j < |rest| && rest[j].entity == x && rest[j].tag == tag;
      assert t[j + |first|] == rest[j];
    }
  }

  /** Below the visited entity, the heads of the children's visits are its connections. */
  lemma JustifiedCons(conn: string -> Result<Connections>, rel: Relation, x: Related, below: seq<Related>, children: seq<Entity>)
    requires Justified(conn, rel, below, children, Indirect)
    requires forall c | c in children :: IsChild(conn, rel, x.entity, c)
    ensures Justified(conn, rel, [x] + below, [x.entity], x.tag)
  {
    var t := [x] + below;
    forall j | 0 <= j < |t|
      ensures (t[j].entity in [x.entity] && t[j].tag == x.tag) ||
              exists i | 0 <= i < j :: IsChild(conn, rel, t[i].entity, t[j].entity)
    {
      if j > 0 {
        assert t[j] == below[j - 1];
        if below[j - 1].entity in children && below[j - 1].tag == Indirect {
          assert IsChild(conn, rel, t[0].entity, t[j].entity);
        } else {
          var i :| 0 <= i < j - 1 && IsChild(conn, rel, below[i].entity, below[j - 1].entity);
          assert t[i + 1] == below[i];
        }
      }
    }
  }

  lemma JustifiedAppend(conn: string -> Result<Connections>, rel: Relation, first: seq<Related>, rest: seq<Related>, es: seq<Entity>, tag: Tag)
    requires es != []
    requires Justified(conn, rel, first, [es[0]], tag)
    requires Justified(conn, rel, rest, es[1..], tag)
    ensures Justified(conn, rel, first + rest, es, tag)
  {
    var t := first + rest;
    forall j | 0 <= j < |t|
      ensures (t[j].entity in es && t[j].tag == tag) ||
              exists i | 0 <= i < j :: IsChild(conn, rel, t[i].entity, t[j].entity)
    {
      if j < |first| {
        assert t[j] == first[j];
        if !(first[j].entity in [es[0]] && first[j].tag == tag) {
          var i :| 0 <= i < j && IsChild(conn, rel, first[i].entity, first[j].entity);
          assert t[i] == first[i];
        }
      } else {
        assert t[j] == rest[j - |first|];
        if !(rest[j - |first|].entity in es[1..] && rest[j - |first|].tag == tag) {
          var i :| 0 <= i < j - |first| && IsChild(conn, rel, rest[i].entity, rest[j - |first|].entity);
          assert t[i + |first|] == rest[i];
        }
      }
    }
  }

  /** The closure of `d`: the members closure, then the memberships closure; in each the
      direct tuples are exactly `d`'s connections in order, every tuple below them is
      indirect and hangs off an earlier tuple, and every tuple's connections are in it. */
  lemma {:induction false} TraceTagging(conn: string -> Result<Connections>, down: map<string, nat>, up: map<string, nat>, d: string)
    requires Ranked(conn, Members, down) && Ranked(conn, Memberships, up)
    requires d in down && d in up
    requires Trace(conn, down, up, d).Ok?
    ensures var c, t := conn(d).value, Trace(conn, down, up, d).value;
            exists k | 0 <= k <= |t| ::
              && WellTagged(conn, Members, t[..k], Direct, c.members)
              && WellTagged(conn, Memberships, t[k..], Direct, c.memberships)
    ensures var t := Trace(conn, down, up, d).value;
            forall i, j | 0 <= i < j < |t| && t[i].relation == Memberships :: t[j].relation == Memberships
  {
    var c := conn(d).value;
    var m := VisitAll(conn, Members, down, c.members, down[d], Direct).value;
    var u := VisitAll(conn, Memberships, up, c.memberships, up[d], Direct).value;
    VisitAllShape(conn, Members, down, c.members, down[d], Direct);
    VisitAllShape(conn, Memberships, up, c.memberships, up[d], Direct);
    assert m + u == Trace(conn, down, up, d).value;
    TraceSplits(conn, m, u, c);
    TraceRelations(conn, m, u, c);
  }

  /** The trace splits after the members part into two well-tagged halves. */
  lemma TraceSplits(conn: string -> Result<Connections>, m: seq<Related>, u: seq<Related>, c: Connections)
    requires WellTagged(conn, Members, m, Direct, c.members) && WellTagged(conn, Memberships, u, Direct, c.memberships)
    ensures exists k | 0 <= k <= |m + u| ::
              && WellTagged(conn, Members, (m + u)[..k], Direct, c.members)
              && WellTagged(conn, Memberships, (m + u)[k..], Direct, c.memberships)
  {
    var t := m + u;
    assert t[..|m|] == m && t[|m|..] == u;
  }

  /** No members tuple follows a memberships tuple. */
  lemma TraceRelations(conn: string -> Result<Connections>, m: seq<Related>, u: seq<Related>, c: Connections)
    requires WellTagged(conn, Members, m, Direct, c.members) && WellTagged(conn, Memberships, u, Direct, c.memberships)
    ensures forall i, j | 0 <= i < j < |m + u| && (m + u)[i].relation == Memberships :: (m + u)[j].relation == Memberships
  {
    var t := m + u;
    forall i | 0 <= i < |t| ensures t[i].relation == (if i < |m| then Members else Memberships) {
      if i < |m| { assert t[i] == m[i]; } else { assert t[i] == u[i - |m|]; }
    }
  }

  lemma {:induction false} BucketSizes(t: seq<Related>)
    requires forall i | 0 <= i < |t| :: t[i].entity.HasDescriptor()
    ensures |UsersOf(t)| + |GroupsOf(t)| == |t|
  {
    if t != [] {
      BucketSizes(t[1..]);
    }
  }

  /** `get_related_entities` puts every tuple of the closure in exactly one bucket: users
      in `users`, groups in `groups`, and in each bucket the members tuples come first. */
  lemma {:induction false} RelatedBuckets(conn: string -> Result<Connections>, down: map<string, nat>, up: map<string, nat>, d: string)
    requires Ranked(conn, Members, down) && Ranked(conn, Memberships, up)
    requires d in down && d in up
    requires RelatedEntities(conn, down, up, d).Ok?
    ensures var b, t := RelatedEntities(conn, down, up, d).value, Trace(conn, down, up, d).value;
            && (forall x | x in b.users :: x.entity.User? && x in t)
            && (forall x | x in b.groups :: x.entity.Group? && x in t)
            && |b.users| + |b.groups| == |t|
            && (forall i, j | 0 <= i < j < |b.users| && b.users[i].relation == Memberships :: b.users[j].relation == Memberships)
            && (forall i, j | 0 <= i < j < |b.groups| && b.groups[i].relation == Memberships :: b.groups[j].relation == Memberships)
  {
    var c := conn(d).value;
    var m := VisitAll(conn, Members, down, c.members, down[d], Direct).value;
    var u := VisitAll(conn, Memberships, up, c.memberships, up[d], Direct).value;
    VisitAllShape(conn, Members, down, c.members, down[d], Direct);
    VisitAllShape(conn, Memberships, up, c.memberships, up[d], Direct);
    var t := m + u;
    var b := RelatedEntities(conn, down, up, d).value;
    assert b.users == UsersOf(t) && b.groups == GroupsOf(t);
    BucketSizes(t);
    MembersFirst(m, u);
  }

  /** Filtering by type keeps the members tuples ahead of the memberships tuples. */
  lemma MembersFirst(m: seq<Related>, u: seq<Related>)
    requires forall x | x in m :: x.relation == Members
    requires forall x | x in u :: x.relation == Memberships
    ensures var us := UsersOf(m + u);
            forall i, j | 0 <= i < j < |us| && us[i].relation == Memberships :: us[j].relation == Memberships
    ensures var gs := GroupsOf(m + u);
            forall i, j | 0 <= i < j < |gs| && gs[i].relation == Memberships :: gs[j].relation == Memberships
  {
    UsersOfAppend(m, u);
    GroupsOfAppend(m, u);
    var um: seq<Related>, uu: seq<Related> := UsersOf(m), UsersOf(u);
    assert forall k | 0 <= k < |um + uu| :: (um + uu)[k].relation == (if k < |um| then Members else Memberships) by {
      forall k | 0 <= k < |um + uu| ensures (um + uu)[k].relation == (if k < |um| then Members else Memberships) {
        if k < |um| { assert um[k] in um; } else { assert uu[k - |um|] in uu; }
      }
    }
    var gm: seq<Related>, gu: seq<Related> := GroupsOf(m), GroupsOf(u);
    assert forall k | 0 <= k < |gm + gu| :: (gm + gu)[k].relation == (if k < |gm| then Members else Memberships) by {
      forall k | 0 <= k < |gm + gu| ensures (gm + gu)[k].relation == (if k < |gm| then Members else Memberships) {
        if k < |gm| { assert gm[k] in gm; } else { assert gu[k - |gm|] in gu; }
      }
    }
  }

  /** A user in group A, which is itself in group B. */
  const ExampleUser: Entity := User("u", "alice", JNull, JStr(LiveDomain))
  const ExampleA: Entity := Group("a", "A", JNull, JNull)
  const ExampleB: Entity := Group("b", "B", JNull, JNull)

  function ExampleConnections(d: string): Result<Connections> {
    if d == "u" then Ok(Connections([], [ExampleA]))
    else if d == "a" then Ok(Connections([ExampleUser], [ExampleB]))
    else if d == "b" then Ok(Connections([ExampleA], []))
    else Ok(Connections([], []))
  }

  const ExampleDown: map<string, nat> := map["u" := 0, "a" := 1, "b" := 2]
  const ExampleUp: map<string, nat> := map["u" := 2, "a" := 1, "b" := 0]

  lemma ExampleRanked()
    ensures Ranked(ExampleConnections, Members, ExampleDown)
    ensures Ranked(ExampleConnections, Memberships, ExampleUp)
  {
    ExampleRankedAlong(Members, ExampleDown);
    ExampleRankedAlong(Memberships, ExampleUp);
  }

  lemma ExampleRankedAlong(rel: Relation, rank: map<string, nat>)
    requires rank == (if rel == Members then ExampleDown else ExampleUp)
    ensures Ranked(ExampleConnections, rel, rank)
  {
    forall d | d in rank && ExampleConnections(d).Ok?
      ensures Descends(Along(ExampleConnections(d).value, rel), rank, rank[d])
    {
      assert rank.Keys == {"u", "a", "b"};
      assert d == "u" || d == "a" || d == "b";
    }
  }

  lemma ExampleVisitB()
    ensures Ranked(ExampleConnections, Memberships, ExampleUp)
    ensures VisitAll(ExampleConnections, Memberships, ExampleUp, [ExampleB], 1, Indirect) ==
            Ok([Related(ExampleB, Memberships, Indirect)])
  {
    ExampleRanked();
    var conn := ExampleConnections;
    var rb := Related(ExampleB, Memberships, Indirect);
    assert conn(ExampleB.descriptor) == Ok(Connections([ExampleA], []));
    assert VisitAll(conn, Memberships, ExampleUp, [], 0, Indirect) == Ok([]);
    assert Visit(conn, Memberships, ExampleUp, ExampleB, Indirect) == Ok([rb] + []);
    assert [ExampleB][1..] == [];
    assert VisitAll(conn, Memberships, ExampleUp, [], 1, Indirect) == Ok([]);
    assert [rb] + [] == [rb];
  }

  lemma ExampleVisitA()
    ensures Ranked(ExampleConnections, Memberships, ExampleUp)
    ensures VisitAll(ExampleConnections, Memberships, ExampleUp, [ExampleA], 2, Direct) ==
            Ok([Related(ExampleA, Memberships, Direct), Related(ExampleB, Memberships, Indirect)])
  {
    ExampleVisitB();
    var conn := ExampleConnections;
    var ra, rb := Related(ExampleA, Memberships, Direct), Related(ExampleB, Memberships, Indirect);
    assert conn(ExampleA.descriptor) == Ok(Connections([ExampleUser], [ExampleB]));
    assert Visit(conn, Memberships, ExampleUp, ExampleA, Direct) == Ok([ra] + [rb]);
    assert [ExampleA][1..] == [];
    assert VisitAll(conn, Memberships, ExampleUp, [], 2, Direct) == Ok([]);
    assert [ra] + [rb] + [] == [ra, rb];
  }

  lemma ExampleTrace()
    ensures Ranked(ExampleConnections, Members, ExampleDown)
    ensures Ranked(ExampleConnections, Memberships, ExampleUp)
    ensures Trace(ExampleConnections, ExampleDown, ExampleUp, "u") ==
            Ok([Related(ExampleA, Memberships, Direct), Related(ExampleB, Memberships, Indirect)])
  {
    ExampleRanked();
    ExampleVisitA();
    var conn := ExampleConnections;
    var ra, rb := Related(ExampleA, Memberships, Direct), Related(ExampleB, Memberships, Indirect);
    assert conn("u") == Ok(Connections([], [ExampleA]));
    assert VisitAll(conn, Members, ExampleDown, [], 0, Direct) == Ok([]);
    assert [] + [ra, rb] == [ra, rb];
  }

  lemma ExampleSplit()
    ensures var t := [Related(ExampleA, Memberships, Direct), Related(ExampleB, Memberships, Indirect)];
            UsersOf(t) == [] && GroupsOf(t) == t
  {
    var ra, rb := Related(ExampleA, Memberships, Direct), Related(ExampleB, Memberships, Indirect);
    assert [ra, rb][1..] == [rb] && [rb][1..] == [];
    assert UsersOf([rb]) == [] + UsersOf([]);
    assert UsersOf([ra, rb]) == [] + UsersOf([rb]);
    assert GroupsOf([rb]) == [rb] + GroupsOf([]);
    assert GroupsOf([ra, rb]) == [ra] + GroupsOf([rb]);
  }

  /** For U in A in B, the related entities of U are A (direct) and B (indirect), both
      reached through memberships, and no members. */
  lemma ExampleClosure()
    ensures Ranked(ExampleConnections, Members, ExampleDown)
    ensures Ranked(ExampleConnections, Memberships, ExampleUp)
    ensures RelatedEntities(ExampleConnections, ExampleDown, ExampleUp, "u") ==
            Ok(Buckets([], [Related(ExampleA, Memberships, Direct), Related(ExampleB, Memberships, Indirect)]))
  {
    ExampleTrace();
    ExampleSplit();
    var t := [Related(ExampleA, Memberships, Direct), Related(ExampleB, Memberships, Indirect)];
    assert [] + UsersOf(t) == [] && [] + GroupsOf(t) == t;
    assert Extend(Buckets([], []), Ok(t)) == Ok(Buckets([], t));
  }
}
