/** Failure-carrying values used in place of Python's `None` and raised exceptions. */
module Wrappers {

  /** A Python value that may be `None`. */
  datatype Option<+T> = None | Some(value: T) {

    /** The value, or `default` for `None` (Python's `x or default` on an optional string). */
    function GetOr(default: T): T {
      match this
      case Some(v) => v
      case None => default
    }
  }

  /** The outcome of a call that either returns a value or raises an exception of type `E`. */
  datatype Result<+T, +E> = Ok(value: T) | Err(error: E)
}
