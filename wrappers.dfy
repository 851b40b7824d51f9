/** Optional values and fallible results, shared by every module of the model. */
module Wrappers {

  datatype Option<+T> = None | Some(value: T)

  /** A computation that either produced a value or raised with a message. */
  datatype Result<+T, +E> = Ok(value: T) | Err(error: E)
}
