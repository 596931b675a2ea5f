/**
 * The TypeORM `Repository<User>` the service is given, reduced to the three calls
 * the service makes: `create`, `save` and `findOne({ where: { id } })`. The table is
 * a map from id to row. `calls` records every call with its arguments, the way the
 * unit tests' mocks record them.
 */
module Repository {
  import opened Wrappers
  import opened Entities

  /** One call made on the repository, with the arguments it received. */
  datatype Call =
    | CreateCall(fields: UserFields)
    | SaveCall(fields: UserFields, id: Option<int>)
    | FindOneCall(key: int)

  class UserRepository {
    /** The user table, keyed by primary key. */
    var rows: map<int, User>
    /** The next key the store hands out; contracts promise only a fresh key. */
    var nextId: int
    /** Every call made on this repository, oldest first. */
    ghost var calls: seq<Call>

    /** Each row sits under its own id, and the next key is above every used key. */
    ghost predicate Valid()
      reads this
    {
      forall k | k in rows :: rows[k].id == k && k < nextId
    }

    constructor ()
      ensures Valid() && rows == map[] && calls == []
    {
      rows := map[];
      nextId := 1;
      calls := [];
    }

    /** `create(fields)`: a new entity object, not yet persisted, without an id. */
    method Create(fields: UserFields) returns (e: UserEntity)
      modifies this`calls
      ensures fresh(e) && e.id == None && e.Fields() == fields
      ensures calls == old(calls) + [CreateCall(fields)]
    {
      calls := calls + [CreateCall(fields)];
      e := new UserEntity(fields);
    }

    /**
     * `save(entity)`: an entity without an id is inserted under a fresh key, which is
     * written back into the entity; an entity with an id overwrites that row.
     */
    method Save(e: UserEntity)
      requires Valid()
      modifies this, e
      ensures Valid()
      ensures e.Fields() == old(e.Fields()) && e.id.Some?
      ensures old(e.id).Some? ==> e.id == old(e.id)
      ensures old(e.id).None? ==> e.id.value !in old(rows)
      ensures rows == old(rows)[e.id.value := e.Row()]
      ensures calls == old(calls) + [SaveCall(old(e.Fields()), old(e.id))]
    {
      calls := calls + [SaveCall(e.Fields(), e.id)];
      var key := if e.id.Some? then e.id.value else nextId;
      e.id := Some(key);
      rows := rows[key := e.Row()];
      if nextId <= key {
        nextId := key + 1;
      }
    }

    /** `findOne({ where: { id } })`: the row with that key, or null. */
    method FindOne(id: int) returns (r: Option<User>)
      modifies this`calls
      ensures r.Some? <==> id in rows
      ensures r.Some? ==> r.value == rows[id]
      ensures calls == old(calls) + [FindOneCall(id)]
    {
      calls := calls + [FindOneCall(id)];
      r := if id in rows then Some(rows[id]) else None;
    }
  }
}
