/** Optional values and results with an error. */
module Wrappers {

  /** A value that may be missing: Python's `dict.get` without a default. */
  datatype Option<+T> = None | Some(value: T)

  /** Either a value or the error that replaced it: a Python call that may raise. */
  datatype Result<+T, +E> = Ok(value: T) | Err(error: E)
}
