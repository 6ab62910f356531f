/** Failure-carrying datatypes shared by the model: an optional value (the
    model's stand-in for Java's `null`) and a success-or-failure result (the
    model's stand-in for a thrown exception). */
module Wrappers {

  datatype Option<+T> = None | Some(value: T) {

    /** The wrapped value, or `default` when there is none. */
    function GetOr(default: T): T {
      match this
      case Some(v) => v
      case None => default
    }
  }

  datatype Result<+R, +E> = Success(value: R) | Failure(error: E)
}
