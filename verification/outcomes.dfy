/** Failure-carrying datatypes shared by the whole model. */
module Outcomes {

  /** A value that may be absent. */
  datatype Option<+T> = None | Some(value: T)

  /** A completed asynchronous call: either its resolved value or the error it was rejected with. */
  datatype Result<+T, +E> = Ok(value: T) | Err(error: E)

  /** A completed asynchronous call that resolves to nothing (`Promise<void>`). */
  datatype Outcome<+E> = Pass | Fail(error: E)
}
