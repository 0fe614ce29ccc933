/** Failure-compatible wrappers shared by the plugin modules. */
module Wrappers {

  /** An optional value: Python's `None` versus an object. */
  datatype Option<+T> = None | Some(value: T)

  /** The outcome of an operation that may raise: a value or the exception it raises. */
  datatype Result<+T, +E> = Ok(value: T) | Err(error: E)
}
