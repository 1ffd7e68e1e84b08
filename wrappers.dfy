/** Option and Result values used for the optional fields and the thrown errors of the app. */
module Wrappers {

  datatype Option<+T> = None | Some(value: T)

  /** A Swift `throws` function: either a value or the error it throws. */
  datatype Result<+T, +E> = Success(value: T) | Failure(error: E) {
    predicate IsFailure() { Failure? }

    function PropagateFailure<U>(): Result<U, E>
      requires Failure?
    {
      Failure(error)
    }

    function Extract(): T
      requires Success?
    {
      value
    }
  }
}
