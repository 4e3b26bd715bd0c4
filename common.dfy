/** Values shared by every part of the registry: optional values, handler
    results, error kinds and the identifiers the records use. */
module Common {

  /** An optional value: a request field that may be absent, a nullable
      document field. */
  datatype Option<+T> = None | Some(value: T) {
    function GetOr(default: T): T {
      if Some? then value else default
    }
  }

  /** What a handler answers: the record it returns or the error it reports. */
  datatype Result<+T> = Ok(value: T) | Err(error: Error)

  /** The collections a lookup can miss in. */
  datatype Collection = Lands | Disputes | Transfers | Users

  /** The failure paths of the handlers. */
  datatype Error =
    | MissingField              // 400: a required request field is absent or empty
    | InvalidField              // 400: a field is blank after trimming or outside its enum
    | DuplicateParcel           // 400: a land with this parcelId is already registered
    | LandOnDispute             // 400: a land on dispute cannot be listed for transfer
    | TransferNotActive         // 400: only an active transfer can be approved
    | NotFound(collection: Collection)  // 404: the referenced record does not exist
    | DatabaseError             // 500: a schema validator, unique index or query refused the operation

  /** The HTTP status the handlers answer with for each error. */
  function HttpStatus(e: Error): (code: int)
    ensures code == 404 <==> e.NotFound?
    ensures code == 500 <==> e == DatabaseError
    ensures code == 400 || code == 404 || code == 500
  {
    match e
    case NotFound(_) => 404
    case DatabaseError => 500
    case _ => 400
  }

  /** A user's database id (`_id`). */
  type UserId = nat

  /** A point in time (`Date.now()`), supplied by the caller. */
  type Time = nat

  /** JavaScript truthiness of an optional string: absent and "" are falsy. */
  predicate Truthy(s: Option<string>) {
    s.Some? && s.value != ""
  }

  /** JavaScript truthiness of an optional number: absent and 0 are falsy. */
  predicate TruthyNumber(x: Option<real>) {
    x.Some? && x.value != 0.0
  }
}
