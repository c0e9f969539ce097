/** Option and Result, used for Python's `None` returns and raised exceptions. */
module Wrappers {

  datatype Option<+T> = None | Some(value: T)

  /** `Err` stands for an exception the Python code raises; the payload names it. */
  datatype Result<+T, +E> = Ok(value: T) | Err(error: E)
}
