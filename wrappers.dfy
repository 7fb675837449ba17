/** Option and Result datatypes shared by the cart and server models. */
module Wrappers {

  /** A value that may be absent: a missing object property, an empty session slot. */
  datatype Option<+T> = None | Some(value: T)

  /** The outcome of a validation step: a value, or the message the caller is answered with. */
  datatype Result<+R, +E> = Success(value: R) | Failure(error: E)
}
