/** Option and Result, with the HTTP error replies every handler can send. */
module Wrappers {

  datatype Option<+T> = None | Some(value: T) {
    /** The wrapped value, or `default` when there is none. */
    function GetOr(default: T): T {
      match this
      case Some(v) => v
      case None => default
    }
  }

  /** An error reply: the HTTP status code and the `error` text of the JSON body `{error: ...}`. */
  datatype Failure = Failure(code: nat, error: string)

  /** The outcome of a handler: a 200 reply carrying a value, or an error reply. */
  datatype Result<+T> = Ok(value: T) | Err(failure: Failure) {
    /** The value of a success, None for a failure. */
    function ToOption(): Option<T> {
      match this
      case Ok(v) => Some(v)
      case Err(_) => None
    }
  }

  /** The reply of a handler whose body fails its schema. */
  const InvalidData := Failure(400, "Invalid data")

  /** The reply of a protected handler reached without an identity. */
  const Unauthorized := Failure(401, "Unauthorized")

  /** What the framework sends for an exception a handler does not catch
      (a failed schema validation or a duplicate key inside the database). */
  const Internal := Failure(500, "Internal Server Error")
}
