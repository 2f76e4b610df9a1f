/** Option and Result values used by every other module. */
module Wrappers {

  datatype Option<+T> = None | Some(value: T)

  /** A computed value, or the reason why the operation was refused. */
  datatype Result<+T, +E> = Ok(value: T) | Err(error: E)
}
