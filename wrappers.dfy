/** Optional values and results with an error, as used throughout the model. */
module Wrappers {

  /** Python's `None` or a present value. */
  datatype Option<+T> = None | Some(value: T)

  /** A computation that either produced a value or failed with an error value. */
  datatype Result<+T, +E> = Ok(value: T) | Err(error: E)
}
