/** Failure-carrying wrappers shared by the other modules. */
module Wrappers {

  /** A value that may be absent: `null` in C#, `undefined` in TypeScript. */
  datatype Option<+T> = None | Some(value: T)

  /** The outcome of an operation that either returns a value or throws. */
  datatype Result<+R, +E> = Success(value: R) | Failure(error: E)
}
