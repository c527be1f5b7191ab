/** Values shared by the entities and the services: optional values, the three
    shapes a field of a JSON request body can take, the HTTP errors the
    services raise, and the record a repository hands back after a write. */
module Common {

  /** Milliseconds since the epoch: the value a JavaScript `Date` holds. */
  type Timestamp = int

  datatype Option<+T> = None | Some(value: T)

  function GetOr<T>(o: Option<T>, default: T): T
  {
    match o
    case Some(v) => v
    case None => default
  }

  /** A field of a request body: left out (`undefined`), sent as `null`, or
      sent with a value. The services treat the three differently. */
  datatype Field<+T> = Undefined | Null | Value(v: T)

  /** JavaScript truthiness of a string field: present and not the empty string. */
  predicate TruthyString(f: Field<string>)
  {
    f.Value? && f.v != ""
  }

  /** JavaScript truthiness of a numeric field: present and not zero. */
  predicate TruthyNumber(f: Field<int>)
  {
    f.Value? && f.v != 0
  }

  /** The NestJS exceptions the services throw, each with its message. */
  datatype Failure =
    | NotFound(message: string)
    | BadRequest(message: string)
    | Conflict(message: string)

  datatype Result<+T> = Ok(value: T) | Err(failure: Failure)

  /** A row as a repository returns it: the identifier the database assigned
      and the persisted fields. */
  datatype Stored<+T> = Stored(id: int, datos: T)
}
