/** Failure-compatible wrappers: a Java reference that may be null, the result of
    a computation that may throw, and the outcome of a mutator that may throw. */
module Wrappers {

  datatype Option<+T> = None | Some(value: T) {
    function GetOr(default: T): T {
      match this
      case Some(v) => v
      case None => default
    }
  }

  datatype Result<+R, +E> = Success(value: R) | Failure(error: E)

  /** What a mutator that returns `this` leaves behind: it finished, or it threw `error`. */
  datatype Outcome<+E> = Pass | Fail(error: E)
}
