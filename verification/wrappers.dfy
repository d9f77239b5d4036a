/** Failure-compatible wrappers: an optional value, and a result that is
    either a value or an error. Both are used with `:-`. */
module Wrappers {

  /** A value that may be absent; `None` stands for JavaScript's `undefined`
      (and `null`) wherever the model needs it. */
  datatype Option<+T> = None | Some(value: T)

  /** The outcome of an operation that can throw: `Failure` carries what it threw. */
  datatype Result<+T, +E> = Success(value: T) | Failure(error: E) {

    predicate IsFailure() {
      Failure?
    }

    function PropagateFailure<U>(): Result<U, E>
      requires Failure?
    {
      Failure(error)
    }

    function Extract(): T
      requires Success?
    {
      value
    }
  }
}
