/** Failure-carrying values used in place of Python's `None` arguments and raised exceptions. */
module Wrappers {

  /** An optional argument: `None` stands for any argument that is not a list. */
  datatype Option<+T> = None | Some(value: T)

  /** The outcome of an operation that may raise instead of returning. */
  datatype Result<+T, +E> = Ok(value: T) | Err(error: E)
}
