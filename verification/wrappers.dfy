/** Option and Result: the absent value and the raised exception, as data. */
module Wrappers {

  /** An optional value, for the `int | None` parameter `serving_gpus` and for
      keyword arguments a call leaves at the callee's default. */
  datatype Option<+T> = None | Some(value: T)

  /** Either a computed value or the error that was raised instead of it. */
  datatype Result<+R, +E> = Success(value: R) | Failure(error: E) {

    predicate IsFailure() {
      Failure?
    }

    function PropagateFailure<U>(): Result<U, E>
      requires Failure?
    {
      Failure(error)
    }

    function Extract(): R
      requires Success?
    {
      value
    }
  }
}
