/** Failure-carrying values used throughout the model: a JavaScript `undefined`
    becomes `None`, a thrown `Error(message)` becomes `Failure(message)`. */
module Wrappers {

  datatype Option<+T> = None | Some(value: T) {
    /** `x || default` for an optional value. */
    function GetOr(default: T): T {
      match this
      case Some(v) => v
      case None => default
    }
  }

  datatype Result<+R, +E> = Success(value: R) | Failure(error: E) {
    predicate IsFailure() {
      Failure?
    }

    function PropagateFailure<U>(): Result<U, E>
      requires Failure?
    {
      Failure(error)
    }

    function Extract(): R
      requires Success?
    {
      value
    }
  }
}
