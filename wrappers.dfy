/** Optional values and results with a typed error, shared by every module. */
module Wrappers {

  /** A value that may be absent (JavaScript's `undefined` / `null`). */
  datatype Option<+T> = None | Some(value: T) {
    /** The value, or `default` when absent (a missing value falls back to the default). */
    function GetOr(default: T): T {
      match this
      case Some(v) => v
      case None => default
    }
  }

  /** The outcome of a request: a value, or an error. */
  datatype Result<+R, +E> = Success(value: R) | Failure(error: E)
}
