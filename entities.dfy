/**
 * The `User` entity and the `Cities` enumeration. Their source files are not part of
 * this model; their shape is the one the service, the tests and the migration use:
 * an integer id assigned by the store, a name, an email and a city.
 */
module Entities {
  import opened Wrappers

  /** The values of the `Cities` enumeration the resolver returns. */
  datatype City = Cairo | Alexandria | Giza

  /** A row of the user table, as the store holds it and as lookups return it. */
  datatype User = User(id: int, name: string, email: string, city: City)

  /** The fields given to the repository's `create`. */
  datatype UserFields = UserFields(name: string, email: string, city: City)

  /**
   * An entity object in memory. `create` returns one without an id; `save`
   * writes the id the store assigned into this same object.
   */
  class UserEntity {
    var id: Option<int>
    var name: string
    var email: string
    var city: City

    constructor (fields: UserFields)
      ensures id == None && Fields() == fields
    {
      id := None;
      name, email, city := fields.name, fields.email, fields.city;
    }

    /** The entity's fields other than its id. */
    function Fields(): UserFields
      reads this
    {
      UserFields(name, email, city)
    }

    /** The row this entity stands for once it has an id. */
    function Row(): User
      reads this
      requires id.Some?
    {
      User(id.value, name, email, city)
    }
  }
}
