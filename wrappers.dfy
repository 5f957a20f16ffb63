/** Optional values and results: JavaScript's `undefined` and thrown errors. */
module Wrappers {

  /** A value that may be absent (a missing key in a partial record). */
  datatype Option<+T> = None | Some(value: T) {

    /** The value, or `default` when absent (zod's `.default(...)`). */
    function GetOr(default: T): T {
      match this
      case Some(v) => v
      case None => default
    }
  }

  /** The outcome of an operation that may throw: `Failure` carries the error message. */
  datatype Result<+R, +E> = Success(value: R) | Failure(error: E)
}
