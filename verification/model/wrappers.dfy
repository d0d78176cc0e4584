/** Optional values and error-carrying results shared by the whole model. */
module Wrappers {

  /** A JavaScript value that may be `undefined`/`null`, or a Python attribute that may be `None`. */
  datatype Option<+T> = None | Some(value: T)

  /** The outcome of an operation that can raise: `Ok` with a value, or `Err` with the error raised. */
  datatype Result<+T, +E> = Ok(value: T) | Err(error: E)
}
