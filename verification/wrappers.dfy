/** Failure-carrying datatypes shared by the whole model. */
module Wrappers {

  /** Rust's `Option<T>`. */
  datatype Option<+T> = None | Some(value: T)

  /** Rust's `Result<T, E>`. */
  datatype Result<+T, +E> = Ok(value: T) | Err(error: E)

  /** The outcome of a fallible operation that returns nothing on success (`Result<(), E>`). */
  datatype Outcome<+E> = Pass | Fail(error: E)
}
