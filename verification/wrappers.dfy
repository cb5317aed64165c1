/** Optional values and returned-or-thrown results, shared by the other
    modules: an optional value stands for JavaScript's null/undefined versus a
    present value. */
module Wrappers {

  /** A value that may be absent (null or undefined in the source). */
  datatype Option<+T> = None | Some(value: T) {

    /** The wrapped value, or `default` when absent. */
    function GetOr(default: T): T {
      match this
      case Some(v) => v
      case None => default
    }
  }

  /** A returned value or a thrown error. */
  datatype Result<+R, +E> = Success(value: R) | Failure(error: E)
}
