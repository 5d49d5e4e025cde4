/** Failure-carrying values shared by the other modules. */
module Wrappers {

  /** A value that may be absent: an offset the DOM reports as NaN, a side that does not fit. */
  datatype Option<+T> = None | Some(value: T)

  /** The outcome of an operation of the widget that may throw. */
  datatype Result<+T, +E> = Ok(value: T) | Err(error: E)
}
