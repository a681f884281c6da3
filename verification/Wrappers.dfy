/** Optional values and the result of an operation that may raise. */
module Wrappers {

  datatype Option<+T> = None | Some(value: T)

  /** The exceptions of the original are the Failure values of this type. */
  datatype Result<+T, +E> = Success(value: T) | Failure(error: E) {

    predicate IsFailure() {
      Failure?
    }

    function PropagateFailure<U>(): Result<U, E>
      requires Failure?
    {
      Failure(error)
    }

    function Extract(): T
      requires Success?
    {
      value
    }
  }
}
