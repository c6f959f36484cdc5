/** Option and Result, for the nullable arguments and the exceptions of the cart code. */
module Wrappers {

  /** A value that may be absent (JavaScript's `null`). */
  datatype Option<+T> = None | Some(value: T)

  /** Either a computed value or the error that was thrown instead. */
  datatype Result<+T, +E> = Ok(value: T) | Err(error: E)
}
