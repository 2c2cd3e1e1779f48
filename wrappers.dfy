/** Failure-carrying results, used where the Python code raises or returns None. */
module Wrappers {

  datatype Option<+T> = None | Some(value: T)

  /** `Err` stands for an exception raised by the Python code and not caught there. */
  datatype Result<+T, +E> = Ok(value: T) | Err(error: E)
}
