/** Optional values and results that may carry a raised Ruby exception. */
module Wrappers {

  /** A Ruby value that may be nil. */
  datatype Option<+T> = None | Some(value: T)

  /** A computation that either returns or raises. */
  datatype Result<+T, +E> = Ok(value: T) | Err(error: E)
}
