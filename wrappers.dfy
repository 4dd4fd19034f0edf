/** Failure-carrying values used in place of the exceptions the application raises. */
module Wrappers {

  /** A value that may be absent (Python's `None`). */
  datatype Option<+T> = None | Some(value: T) {
    function GetOr(default: T): T {
      match this
      case Some(v) => v
      case None => default
    }
  }

  /** The outcome of an operation that either returns a value or raises an error carrying a message. */
  datatype Result<+T, +E> = Ok(value: T) | Err(error: E)
}
