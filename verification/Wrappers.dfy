/** Optional values and results shared by the models of the fleet tools. */
module Wrappers {
  datatype Option<+T> = None | Some(value: T)

  /** A Python call that either returns or raises; what it raised is named by the error. */
  datatype Result<+T, +E> = Ok(value: T) | Err(error: E)
}
