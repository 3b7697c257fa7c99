/** Optional values and results, shared by the other modules. */
module Wrappers {
  /** An optional value: the model of a pointer that may be NULL. */
  datatype Option<+T> = None | Some(value: T)

  /** A value or an error. */
  datatype Result<+R, +E> = Ok(value: R) | Err(error: E)
}
