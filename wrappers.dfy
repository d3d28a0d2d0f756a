/** Option and Result values: the model's stand-ins for JavaScript's `undefined`
    and for a call that either returns or throws. */
module Wrappers {

  datatype Option<+T> = None | Some(value: T)

  datatype Result<+T, +E> = Success(value: T) | Failure(error: E)

  /** A call that returns nothing useful on success, or throws. */
  datatype Outcome<+E> = Pass | Fail(error: E)
}
