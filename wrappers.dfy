/** The outcome types used where the application returns `None` or reports a failure. */
module Wrappers {

  /** A Python value that may be `None`. */
  datatype Option<+T> = None | Some(value: T)

  /** A computation that either produced a value or failed with a message. */
  datatype Result<+T> = Ok(value: T) | Err(error: string)
}
