/** Failure-carrying values shared by the modules of this project. */
module Wrappers {

  datatype Option<+T> = None | Some(value: T)

  /** What a fallible call returned: a value, or the text of its error. */
  datatype Result<+T> = Ok(value: T) | Err(message: string)
}
