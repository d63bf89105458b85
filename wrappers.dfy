/** Option and Result, shared by the whole model. */
module Wrappers {

  datatype Option<+T> = None | Some(value: T)

  /** A settled promise: resolved with a value or rejected with an error. */
  datatype Result<+T, +E> = Success(value: T) | Failure(error: E)
}
