/** Types shared by every table and service of the wallet back end. */
module Common {

  /** Row identifiers. The database generates a fresh UUID for every insert;
      the model draws them from a counter (see Store.Database.FreshId). */
  type Id = nat

  /** A timestamp column, as an instant on a linear time line. */
  type Date = int

  /** A `decimal(10,2)` column, held exactly as an integer number of hundredths. */
  type Cents = int

  /** A `decimal(10,2)` value has at most ten digits, two of them after the point. */
  const DecimalLimit: int := 10_000_000_000

  predicate FitsDecimal(x: Cents) {
    -DecimalLimit < x < DecimalLimit
  }

  datatype Option<T> = None | Some(value: T)

  /** A field of an update request: left out of the request body, sent as an
      explicit `null`, or given a value. The update validators accept all three. */
  datatype Field<T> = Absent | Null | Given(value: T)

  /** The value a supplied field carries, or nothing for a left-out one. */
  function GivenValue<T>(f: Field<T>): (o: Option<T>)
    ensures o.Some? <==> f.Given?
    ensures o.Some? ==> o.value == f.value
  {
    if f.Given? then Some(f.value) else None
  }

  /** The failures a service call can end in. The first five are the HTTP
      exceptions the services throw; `Rejected` is a write that the database
      itself refuses (a column constraint or a foreign key), surfacing as an
      unhandled query failure. */
  datatype Error = NotFound | Forbidden | Conflict | BadRequest | Unauthorized | Rejected

  datatype Result<T> = Ok(value: T) | Err(error: Error)

  /** A stored row together with the id of the user it belongs to. */
  datatype Owned<T> = Owned(owner: Id, row: T)

  /** A saved row as the services return it: its id and its columns, with the
      owning `user` relation stripped. */
  datatype Saved<T> = Saved(id: Id, row: T)
}
