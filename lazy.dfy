/** `DevopsEntity` (app.py:33-59): an entity whose connections are fetched through the
    browser on first use and then kept in the entity itself. */
module LazyEntities {
  import opened Wrappers
  import opened Entities
  import opened Closure
  import opened RemoteApi
  import opened Resolver

  class LazyEntity {
    const entity: Entity
    /** The `members` and `memberships` slots; `None` until the connections are loaded. */
    var members: Option<seq<Entity>>
    var memberships: Option<seq<Entity>>

    constructor (entity: Entity)
      ensures this.entity == entity && members.None? && memberships.None?
    {
      this.entity := entity;
      members, memberships := None, None;
    }

    /** `_load_connections` (app.py:50-56): an entity without a descriptor (a namespace)
        fails; otherwise both slots are filled from one `get_entity_connections` call. */
    method LoadConnections(b: Browser, now: int) returns (r: Result<Connections>)
      requires b.Valid()
      modifies this, b, b.api.cache
      ensures b.Valid() && b.usersFirst == old(b.usersFirst)
      ensures b.namespaces == old(b.namespaces) && Kept(old(b.groups), b.groups) && Kept(old(b.users), b.users)
      ensures entity.HasDescriptor() ==> Touches(old(b.api.cache.store), b.api.cache.store, ConnectionKeys(entity.descriptor))
      ensures !entity.HasDescriptor() ==> r == Err(NoDescriptor) && unchanged(this) && unchanged(b) && unchanged(b.api.cache)
      ensures entity.HasDescriptor() ==> r == ConnOf(b.api.remote, b.usersFirst)(entity.descriptor)
      ensures r.Ok? ==> members == Some(r.value.members) && memberships == Some(r.value.memberships)
      ensures r.Err? ==> members == old(members) && memberships == old(memberships)
    {
      if !entity.HasDescriptor() {
        return Err(NoDescriptor);
      }
      r := b.GetEntityConnections(entity.descriptor, now);
      if r.Ok? {
        members := Some(r.value.members);
        memberships := Some(r.value.memberships);
      }
    }

    /** `get_members` (app.py:40-43): the kept members, loading them on first use. */
    method GetMembers(b: Browser, now: int) returns (r: Result<seq<Entity>>)
      requires b.Valid()
      modifies this, b, b.api.cache
      ensures b.Valid() && b.usersFirst == old(b.usersFirst)
      ensures b.namespaces == old(b.namespaces) && Kept(old(b.groups), b.groups) && Kept(old(b.users), b.users)
      ensures entity.HasDescriptor() ==> Touches(old(b.api.cache.store), b.api.cache.store, ConnectionKeys(entity.descriptor))
      ensures old(members).Some? ==> r == Ok(old(members).value) && unchanged(this) && unchanged(b) && unchanged(b.api.cache)
      ensures old(members).None? && !entity.HasDescriptor() ==> r == Err(NoDescriptor)
      ensures old(members).None? && entity.HasDescriptor() ==>
                var c := ConnOf(b.api.remote, b.usersFirst)(entity.descriptor);
                (c.Err? ==> r == Err(c.error)) &&
                (c.Ok? ==> r == Ok(c.value.members) && members == Some(c.value.members) && memberships == Some(c.value.memberships))
      ensures r.Ok? ==> members == Some(r.value)
    {
      if members.None? {
        var loaded := LoadConnections(b, now);
        if loaded.Err? {
          return Err(loaded.error);
        }
      }
      r := Ok(members.value);
    }

    /** `get_groups` (app.py:45-48): the kept memberships, loading them on first use. */
    method GetGroups(b: Browser, now: int) returns (r: Result<seq<Entity>>)
      requires b.Valid()
      modifies this, b, b.api.cache
      ensures b.Valid() && b.usersFirst == old(b.usersFirst)
      ensures b.namespaces == old(b.namespaces) && Kept(old(b.groups), b.groups) && Kept(old(b.users), b.users)
      ensures entity.HasDescriptor() ==> Touches(old(b.api.cache.store), b.api.cache.store, ConnectionKeys(entity.descriptor))
      ensures old(memberships).Some? ==> r == Ok(old(memberships).value) && unchanged(this) && unchanged(b) && unchanged(b.api.cache)
      ensures old(memberships).None? && !entity.HasDescriptor() ==> r == Err(NoDescriptor)
      ensures old(memberships).None? && entity.HasDescriptor() ==>
                var c := ConnOf(b.api.remote, b.usersFirst)(entity.descriptor);
                (c.Err? ==> r == Err(c.error)) &&
                (c.Ok? ==> r == Ok(c.value.memberships) && members == Some(c.value.members) && memberships == Some(c.value.memberships))
      ensures r.Ok? ==> memberships == Some(r.value)
    {
      if memberships.None? {
        var loaded := LoadConnections(b, now);
        if loaded.Err? {
          return Err(loaded.error);
        }
      }
      r := Ok(memberships.value);
    }
  }
}
