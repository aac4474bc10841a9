/** Failure-carrying values shared by the modules of the model. */
module Wrappers {

  datatype Option<+T> = None | Some(value: T)

  /** The outcome of an operation that may throw: the thrown error is the `Failure` payload. */
  datatype Result<+R, +E> = Success(value: R) | Failure(error: E)
}
