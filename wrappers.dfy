/** Option and Result wrappers shared by every route of the model. */
module Wrappers {

  /** A value that may be absent (JavaScript `null`/`undefined`). */
  datatype Option<+T> = None | Some(value: T)

  /** An error response of a route: its HTTP status and the message in its JSON body. */
  datatype Failure = Failure(status: int, message: string)

  /** What a route handler answers: a success payload or an error response. */
  datatype Result<+T> = Ok(value: T) | Err(failure: Failure)

  /** Every route answers 401 when the session carries no user id. */
  const Unauthorized: Failure := Failure(401, "Unauthorized")

  /** The catch-all answer of every route when the store throws. */
  const InternalError: Failure := Failure(500, "Internal server error")
}
