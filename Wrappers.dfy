/** Optional values and results with an error, as used across the BILD model. */
module Wrappers {

  datatype Option<+T> = None | Some(value: T)

  /** The outcome of an operation that may raise: a value, or the error that aborts it. */
  datatype Result<+T, +E> = Ok(value: T) | Err(error: E)
}
