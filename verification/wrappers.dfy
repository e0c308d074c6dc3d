/** Failure-carrying values for the error paths of the model. */
module Wrappers {

  datatype Option<+T> = None | Some(value: T)

  /** `Err` stands for a Python exception; its payload is the exception message. */
  datatype Result<+T, +E> = Ok(value: T) | Err(error: E)
}
