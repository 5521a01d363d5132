/** Failure-carrying values shared by every module of the model. */
module Wrappers {

  /** A value that may be absent (`null` / `undefined` in JavaScript). */
  datatype Option<+T> = None | Some(value: T)

  /** The result of an operation that may throw: `Fail(msg)` carries the message of the thrown Error. */
  datatype Outcome = Pass | Fail(msg: string)

  /** A value-returning operation that may throw. */
  datatype Result<+T> = Ok(value: T) | Err(msg: string)
}
