/** The Option and Result datatypes shared by the model's modules. */
module Wrappers {

  /** An optional value: the model's stand-in for Python's `None`. */
  datatype Option<+T> = None | Some(value: T)

  /** The outcome of an operation that the source can abort with an exception. */
  datatype Result<+T, +E> = Ok(value: T) | Err(error: E)
}
