/** Option and Result, the optional values and the throwing calls of the modelled code. */
module Wrappers {

  /** A Swift optional: `nil` is `None`. */
  datatype Option<+T> = None | Some(value: T)

  /** The outcome of a call that may throw: its value, or the error it threw. */
  datatype Result<+T, +E> = Success(value: T) | Failure(error: E) {

    predicate IsFailure() {
      Failure?
    }

    function PropagateFailure<U>(): Result<U, E>
      requires Failure?
    {
      Failure(error)
    }

    function Extract(): T
      requires Success?
    {
      value
    }
  }
}
