/** Failure-carrying values shared by every module of the model. */
module Wrappers {

  datatype Option<+T> = None | Some(value: T)

  datatype Result<+T, +E> = Ok(value: T) | Err(error: E)

  /** The error kinds the server raises: `NotFoundError`, `ValidationError`,
      and everything else (a TypeError, a duplicate key) as `Unexpected`. */
  datatype Error = NotFound(message: string) | Invalid(message: string) | Unexpected(message: string)
}
