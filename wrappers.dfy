/** Optional values and results shared by every module of the model. */
module Wrappers {

  /** A value that may be absent: an XML text that is missing, or a null table cell. */
  datatype Option<+T> = None | Some(value: T)

  /** The outcome of an operation that can raise in the original program. */
  datatype Result<+T, +E> = Ok(value: T) | Err(error: E)
}
