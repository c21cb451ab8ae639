/** Failure-carrying result types shared by the modules of this project. */
module Wrappers {

  /** An optional value: `None` where the source has `None` or no answer. */
  datatype Option<+T> = None | Some(value: T)

  /** The outcome of an operation that may raise: `Err` carries what was raised. */
  datatype Result<+T, +E> = Ok(value: T) | Err(error: E)
}
