/** Optional values and fallible results shared by the other modules. */
module Wrappers {

  datatype Option<+T> = None | Some(value: T)

  /** The outcome of a fallible construction: a value, or the message of the
      `Error` string wrapper the program returns. */
  datatype Result<+T> = Ok(value: T) | Err(message: string)
}
