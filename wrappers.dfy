/** Optional values and error results shared by every module. */
module Wrappers {
  datatype Option<T> = None | Some(value: T)

  /** A computation that either yields a value or raises (Python exception). */
  datatype Result<T> = Ok(value: T) | Err(error: string)
}
