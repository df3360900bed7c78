/** Optional values and success-or-failure results, shared by every module. */
module Wrappers {

  /** A value that may be absent: `null`/`undefined` in the JavaScript source. */
  datatype Option<+T> = None | Some(value: T) {
    /** The value, or `default` when absent (the source's `x ?? d`). */
    function GetOr(default: T): T {
      match this
      case Some(v) => v
      case None => default
    }
  }

  /** The outcome of an operation that can fail. */
  datatype Result<+T, +E> = Success(value: T) | Failure(error: E)
}
