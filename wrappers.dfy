/** Failure-carrying values shared by the whole model. */
module Wrappers {

  /** A value that may be absent (JavaScript `undefined`/`null`, SQL `NULL`). */
  datatype Option<+T> = None | Some(value: T)

  /** The outcome of an operation that can throw: a value, or the error it raises. */
  datatype Result<+T, +E> = Ok(value: T) | Err(error: E)
}
