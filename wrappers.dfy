/** Optional values and the error path of a computation that may throw. */
module Wrappers {

  /** A value that may be absent (`null` or `undefined` in the source). */
  datatype Option<+T> = None | Some(value: T) {
    function GetOr(default: T): T {
      match this
      case Some(v) => v
      case None => default
    }
  }

  /** The outcome of an operation that either returns or throws an `Error` with a message. */
  datatype Result<+T> = Ok(value: T) | Err(error: string)
}
