/** Failure-carrying datatypes used in place of Python's `None` and raised exceptions. */
module Wrappers {

  /** An optional value: `None` where the source has `None` or an omitted argument. */
  datatype Option<+T> = None | Some(value: T)

  /** The outcome of a call that either returns a value or raises an error. */
  datatype Result<+R, +E> = Ok(value: R) | Err(error: E)
}
