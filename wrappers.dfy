/** Option and Result, used for JavaScript's `undefined`/`null` alternatives and for thrown errors. */
module Wrappers {

  datatype Option<+T> = None | Some(value: T)

  /** `Ok` carries the value computed on the normal path, `Err` the message of the error that was raised. */
  datatype Result<+T, +E> = Ok(value: T) | Err(error: E)
}
