/** Option and Result, as used for Java's null and for the SAXException error path. */
module Wrappers {

  datatype Option<+T> = None | Some(value: T)

  /** A value or an error; supports `:-` so a failed step propagates its error. */
  datatype Result<+T, +E> = Success(value: T) | Failure(error: E) {
    predicate IsFailure() {
      Failure?
    }

    function PropagateFailure<U>(): Result<U, E>
      requires Failure?
    {
      Failure(error)
    }

    function Extract(): T
      requires Success?
    {
      value
    }
  }

  /** The outcome of an operation that either completes or throws. */
  datatype Outcome<+E> = Pass | Fail(error: E)
}
