/** Nullable values and fallible results, as the .NET code uses null and exceptions. */
module Wrappers {

  /** A value that may be absent: `None` stands for a .NET `null`. */
  datatype Option<+T> = None | Some(value: T)

  /** The outcome of an operation that may throw: `Failure` carries what was thrown. */
  datatype Result<+T, +E> = Success(value: T) | Failure(error: E)
}
