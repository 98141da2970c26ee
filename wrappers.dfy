/** Small failure-carrying datatypes shared by the model. */
module Wrappers {

  /** A value that may be absent: JavaScript's `T | null`. */
  datatype Option<+T> = None | Some(value: T)

  /** What a network request produced: its decoded body, or the message of the
      `Error` the HTTP client threw (the store treats every failure alike). */
  datatype Outcome<+T> = Ok(value: T) | Err(message: string)
}
