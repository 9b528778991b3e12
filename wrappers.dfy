/** Success/failure values standing for the source's thrown errors and rejected promises. */
module Wrappers {

  datatype Option<+T> = None | Some(value: T)

  /** A computation that produced a value or failed with an error. */
  datatype Result<+R, +E> = Success(value: R) | Failure(error: E)

  /** A check that passed or failed with an error; it carries no value. */
  datatype Outcome<+E> = Pass | Fail(error: E)
}
