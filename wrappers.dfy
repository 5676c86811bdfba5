/** Failure-compatible wrappers shared by every module of the model. */
module Wrappers {

  /** A value that may be absent: TypeScript's `T | null` / `T | undefined`. */
  datatype Option<+T> = None | Some(value: T)

  /** The outcome of a computation that either returns a value or throws. */
  datatype Result<+T, +E> = Success(value: T) | Failure(error: E)

  /** The outcome of a statement that returns nothing or throws. */
  datatype Outcome<+E> = Pass | Fail(error: E)
}
