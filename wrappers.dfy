/** Option and Result, the stock failure-carrying datatypes used throughout the model. */
module Wrappers {

  /** `None` stands for Python's `None`. */
  datatype Option<+T> = None | Some(value: T)

  /** A call that either returns a value or raises an exception. */
  datatype Result<+T, +E> = Ok(value: T) | Err(error: E)
}
