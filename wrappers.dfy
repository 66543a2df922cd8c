/** Option for the source's nullable values and Result for its thrown errors. */
module Wrappers {

  /** A value that may be absent (`null` in the source). */
  datatype Option<+T> = None | Some(value: T)

  /** The outcome of an operation that either returns a value or throws. */
  datatype Result<+R, +E> = Ok(value: R) | Err(error: E)
}
