/** Failure-carrying datatypes shared by every module of the model.
    `Result` follows the source language's `Ok`/`Err` naming. */
module Outcomes {

  /** A value that may be absent. */
  datatype Option<+T> = None | Some(value: T)

  /** Either a success value or an error value. */
  datatype Result<+T, +E> = Ok(value: T) | Err(error: E)
}
