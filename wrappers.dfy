/** Nullable values and success-or-exception results, usable with `:-`. */
module Wrappers {

  /** A PHP nullable value: `None` is `null`. */
  datatype Option<+T> = None | Some(value: T)

  /** The outcome of a PHP call that either returns a value or throws. */
  datatype Result<+T, +E> = Success(value: T) | Failure(error: E) {

    predicate IsFailure() {
      Failure?
    }

    function PropagateFailure<U>(): Result<U, E>
      requires Failure?
    {
      Failure(error)
    }

    function Extract(): T
      requires Success?
    {
      value
    }
  }
}
