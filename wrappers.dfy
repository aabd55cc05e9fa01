/** Failure-carrying values: a Python call that returns `None` or raises. */
module Wrappers {

  datatype Option<+T> = None | Some(value: T)

  /** The outcome of a computation that either produces a value or raises an exception. */
  datatype Result<+T, +E> = Ok(value: T) | Err(error: E)
}
