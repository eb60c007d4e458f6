/** Absence and failure values shared by the three construction mechanisms. */
module Wrappers {

  /** A value that may be missing: `None` stands for JavaScript's `null`. */
  datatype Option<+T> = None | Some(value: T)

  /** The outcome of an operation that either yields a value or fails with an error. */
  datatype Result<+T, +E> = Success(value: T) | Failure(error: E)
}
