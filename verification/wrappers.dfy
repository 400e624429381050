/** Failure-compatible result types used to model the exceptions the Python code raises. */
module Wrappers {

  datatype Option<+T> = None | Some(value: T)

  /** Either a value or the exception that replaced it; usable with `:-`. */
  datatype Result<+R, +E> = Success(value: R) | Failure(error: E) {
    predicate IsFailure() {
      Failure?
    }

    function PropagateFailure<U>(): Result<U, E>
      requires Failure?
    {
      Failure(error)
    }

    function Extract(): R
      requires Success?
    {
      value
    }
  }
}
