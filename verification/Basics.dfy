// Shared result types.
module Basics {

  datatype Option<+T> = None | Some(value: T)

  // Success or an error, with nothing to return on success.
  datatype Outcome<+E> = Pass | Fail(error: E)

  datatype Result<+T, +E> = Ok(value: T) | Err(error: E)
}
