/** Vocabulary shared by every request handler of the marketplace backend:
    document ids, optional values, and the way a handler fails. */
module Outcomes {

  /** A MongoDB ObjectId. Only equality and freshness matter, so a number. */
  type Id = nat

  /** The id of a user account and of a worker profile. */
  type UserId = Id
  type WorkerId = Id

  /** A value that may be absent (`undefined`, `null`, or not sent at all). */
  datatype Option<+T> = None | Some(value: T)

  /** How a handler fails. The first three are thrown right after the handler
      called `res.status(...)`. Crash is an exception the handler did not
      anticipate (a TypeError, or a schema validation error raised by `save`):
      the response status is still the default 200 when the error reaches the
      error middleware. */
  datatype ErrorKind = NotFound | BadRequest | Unauthorized | Crash

  /** The thrown `Error`: its kind and its message. */
  datatype Failure = Failure(kind: ErrorKind, message: string)

  /** What a handler produces: its response value, or the error it throws. */
  datatype Result<+T> = Ok(value: T) | Err(failure: Failure)

  /** Reading `req.user._id` when no middleware set `req.user`: a TypeError
      that reaches the error middleware with status 200. */
  const NoSessionUser := Failure(Crash, "Cannot read properties of undefined (reading '_id')")

  /** `res.statusCode` at the moment a handler throws an error of this kind. */
  function StatusAtThrow(kind: ErrorKind): (code: nat)
    ensures kind != Crash <==> code != 200
    ensures kind != Crash ==> 400 <= code < 500
  {
    match kind
    case NotFound => 404
    case BadRequest => 400
    case Unauthorized => 401
    case Crash => 200
  }
}
