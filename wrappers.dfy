/** The two wrapper datatypes used throughout the model: a nullable value and a fallible result. */
module Wrappers {

  /** A value that may be absent; stands for a C# nullable reference or `T?`. */
  datatype Option<+T> = None | Some(value: T)

  /** The outcome of an operation that may throw: its value, or the exception it raises. */
  datatype Result<+R, +E> = Success(value: R) | Failure(error: E)
}
