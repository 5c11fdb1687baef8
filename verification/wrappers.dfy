/** Optional values and failure-carrying results used throughout the model. */
module Wrappers {

  /** A value that may be absent, standing for Python's `None`. */
  datatype Option<+T> = None | Some(value: T)

  /** Either a value or the error that a computation raised. */
  datatype Result<+T, +E> = Ok(value: T) | Err(error: E)
}
