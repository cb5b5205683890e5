/** Optional values and results with an error, as used by the rest of the model. */
module Wrappers {

  /** A value that may be absent: Python's `None` versus a number. */
  datatype Option<+T> = None | Some(value: T)

  /** The outcome of a step that may raise an exception in the original script. */
  datatype Result<+T, +E> = Ok(value: T) | Err(error: E)
}
