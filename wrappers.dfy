/** Failure-carrying values used by every module of the model. */
module Wrappers {

  datatype Option<+T> = None | Some(value: T)

  /** A Rust `Result<T, String>`: the error side is the formatted message. */
  datatype Result<+T> = Ok(value: T) | Err(error: string)
}
