/** Failure-carrying results shared by the modules of the model. */
module Wrappers {

  /** A value that may be absent. */
  datatype Option<T> = None | Some(value: T)

  /** A value or the error that stopped its computation (a raised Python exception). */
  datatype Result<T, E> = Ok(value: T) | Err(error: E)
}
