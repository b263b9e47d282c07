/** The Option and Result datatypes used throughout the model. */
module Wrappers {

  /** A value that may be absent: PHP's `?T` (null or a T). */
  datatype Option<+T> = None | Some(value: T) {
    function GetOr(default: T): T {
      match this
      case Some(v) => v
      case None => default
    }
  }

  /** The outcome of an operation that either returns a value or throws. */
  datatype Result<+T, +E> = Success(value: T) | Failure(error: E)
}
