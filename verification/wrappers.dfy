/** Failure-carrying datatypes shared by the rest of the model. */
module Wrappers {

  /** A value that may be absent; `None` stands for JavaScript's `null`/`undefined`. */
  datatype Option<+T> = None | Some(value: T)

  /** The settled value of a promise: fulfilled with a value or rejected with an error. */
  datatype Result<+T, +E> = Ok(value: T) | Err(error: E)

  /** The settled value of a `Promise<void>`: it carries only an error on rejection. */
  datatype Outcome<+E> = Pass | Fail(error: E)
}
