/** Optional values and results with an error, shared by every module of the model. */
module Wrappers {

  /** Python's `None` versus a present value. */
  datatype Option<+T> = None | Some(value: T)

  /** A computation that either yields a value or raises the given error. */
  datatype Result<+T, +E> = Ok(value: T) | Err(error: E)
}
