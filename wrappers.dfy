/** Option and Result, the two failure-carrying datatypes the model uses
    for absent JSON fields, `null`, thrown errors and rejected inserts. */
module Wrappers {

  datatype Option<+T> = None | Some(value: T) {
    /** The value when present, else `default` (JavaScript's `x || d` on a string field
        is handled separately, because it also replaces the empty string). */
    function GetOr(default: T): T {
      match this
      case Some(v) => v
      case None => default
    }
  }

  datatype Result<+R, +E> = Success(value: R) | Failure(error: E) {
    predicate IsFailure() {
      Failure?
    }

    function PropagateFailure<U>(): Result<U, E>
      requires Failure?
    {
      Failure(error)
    }

    function Extract(): R
      requires Success?
    {
      value
    }
  }
}
