/** Option and Result, the two wrapper types the reducer's inputs and records use. */
module Wrappers {

  /** Rust's `Option<T>`. */
  datatype Option<+T> = None | Some(value: T)

  /** Rust's `Result<T, String>`: the error side of every collaborator result is a message. */
  datatype Result<+T> = Ok(value: T) | Err(error: string)
}
