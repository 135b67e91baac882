/** Failure-compatible wrappers: `Option` for Java references that may be
    null, `Result` for computations that may raise an exception. */
module Wrappers {

  /** A Java reference that is either null (`None`) or points at a value. */
  datatype Option<+T> = None | Some(value: T)

  /** The outcome of a Java call that either returns a value or throws. */
  datatype Result<+R, +E> = Success(value: R) | Failure(error: E) {

    predicate IsFailure() {
      Failure?
    }

    function PropagateFailure<U>(): Result<U, E>
      requires Failure?
    {
      Failure(error)
    }

    function Extract(): R
      requires Success?
    {
      value
    }
  }
}
