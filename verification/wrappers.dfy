/** `Option` and `Result`, shared by the rest of the model. */
module Wrappers {

  /** A value that may be missing. */
  datatype Option<+T> = None | Some(value: T)

  /** The outcome of an operation that can be refused with an error. */
  datatype Result<+R, +E> = Success(value: R) | Failure(error: E)
}
