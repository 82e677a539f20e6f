/** Failure-carrying result types used by every stage of the bot. */
module Wrappers {

  /** A value that may be absent, in the way Python's `None` stands for "no value". */
  datatype Option<+T> = None | Some(value: T)

  /** The outcome of a stage that either produces a value or raises an error. */
  datatype Result<+R, +E> = Success(value: R) | Failure(error: E) {

    predicate IsFailure() {
      Failure?
    }

    function PropagateFailure<U>(): Result<U, E>
      requires Failure?
    {
      Failure(error)
    }

    function Extract(): R
      requires Success?
    {
      value
    }

    /** Re-labels the error, keeping a success as it is. */
    function MapFailure<E2>(wrap: E -> E2): (r: Result<R, E2>)
      ensures r.Success? <==> Success?
      ensures Success? ==> r.value == value
      ensures Failure? ==> r.error == wrap(error)
    {
      match this
      case Success(v) => Success(v)
      case Failure(e) => Failure(wrap(e))
    }
  }
}
