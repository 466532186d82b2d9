/** The entity store that every service writes through. A table is an
    in-memory sequence of rows in the order they were saved. */
module Repositories {

  class Repository<T> {
    var rows: seq<T>

    constructor ()
      ensures rows == []
    {
      rows := [];
    }

    /** `repository.save(entity)` for a new entity: appends one row. */
    method Save(x: T)
      modifies this
      ensures rows == old(rows) + [x]
    {
      rows := rows + [x];
    }
  }
}
