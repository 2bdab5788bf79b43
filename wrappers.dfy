/** Null and thrown exceptions, as values. */
module Wrappers {

  /** A value that may be null: None stands for a C# null reference. */
  datatype Option<+T> = None | Some(value: T)

  /** The outcome of an operation that may throw. */
  datatype Result<+R, +E> = Success(value: R) | Failure(error: E)
}
