/** Optional values and results with an error, as used by every other module. */
module Wrappers {

  /** A value that may be absent: a C pointer that may be NULL. */
  datatype Option<+T> = None | Some(value: T)

  /** The outcome of an operation that returns an error code instead of a value. */
  datatype Result<+T, +E> = Ok(value: T) | Err(error: E)
}
