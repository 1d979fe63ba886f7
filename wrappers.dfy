/** Option and Result types standing for Python's `None` and for raised errors. */
module Wrappers {

  datatype Option<+T> = None | Some(value: T)

  /** `Err(message)` stands for an exception carrying `message`. */
  datatype Result<+T> = Ok(value: T) | Err(error: string)

  /** Success or failure of an operation that returns nothing. */
  datatype Outcome = Pass | Fail(error: string)
}
