/** Failure-carrying datatypes used across the model. */
module Wrappers {

  /** A value that may be absent; `None` stands for a C# null. */
  datatype Option<+T> = None | Some(value: T)

  /** The outcome of an operation that can throw: `Err` carries the exception kind. */
  datatype Result<+T, +E> = Ok(value: T) | Err(error: E)
}
