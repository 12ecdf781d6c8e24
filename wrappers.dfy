/** Option and Result, the failure-carrying values used across the model. */
module Wrappers {

  /** A value that may be missing (JavaScript's `undefined`/`null` where the
      source treats them alike). */
  datatype Option<+T> = None | Some(value: T) {
    function GetOr(default: T): T {
      match this
      case Some(v) => v
      case None => default
    }
  }

  /** The outcome of an operation that can fail with an error of type `E`. */
  datatype Result<+R, +E> = Success(value: R) | Failure(error: E)
}
