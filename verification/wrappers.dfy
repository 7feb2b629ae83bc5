/** Optional values and success/failure results shared by every module. */
module Wrappers {

  /** A value that may be absent: a missing dictionary key, a failed fetch. */
  datatype Option<+T> = None | Some(value: T) {

    /** The value, or `default` when absent (Python's `d.get(k, default)`). */
    function GetOr(default: T): T {
      match this
      case Some(v) => v
      case None => default
    }
  }

  /** The outcome of an operation that either produces a value or fails. */
  datatype Result<+R, +E> = Success(value: R) | Failure(error: E)
}
