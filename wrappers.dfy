/** Option and Result, the two failure-carrying datatypes the model uses. */
module Wrappers {

  /** An optional value: an absent property, a missing header, a failed parse. */
  datatype Option<+T> = None | Some(value: T)

  /** Either a value or the error a JavaScript `throw` would carry. */
  datatype Result<+R, +E> = Success(value: R) | Failure(error: E)
}
