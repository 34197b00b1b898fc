/** Failure-compatible result type used in place of the program's fatal exits. */
module Wrappers {

  datatype Option<+T> = None | Some(value: T)

  /** Either a value or the failure that would have ended the process. */
  datatype Result<+R, +E> = Success(value: R) | Failure(error: E) {
    predicate IsFailure() {
      Failure?
    }

    function PropagateFailure<U>(): Result<U, E>
      requires Failure?
    {
      Failure(error)
    }

    function Extract(): R
      requires Success?
    {
      value
    }
  }
}
