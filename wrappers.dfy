/** Failure-compatible wrappers shared by the other modules. */
module Wrappers {

  /** A value that may be absent: TypeScript's `T | null` (or an optional property). */
  datatype Option<+T> = None | Some(value: T)

  /** The outcome of a call that either returns a value or throws. */
  datatype Result<+T, +E> = Success(value: T) | Failure(error: E)

  /** The outcome of a call that returns nothing or throws. */
  datatype Outcome<+E> = Pass | Fail(error: E)
}
