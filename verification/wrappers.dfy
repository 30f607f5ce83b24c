// Option, Result and Outcome shapes used throughout the model.
module Wrappers {
  /** A value that may be absent (Rust `Option`, Python `None`). */
  datatype Option<T> = None | Some(value: T)

  /** A Rust `Result` whose error side is the message the program produces. */
  datatype Result<T> = Ok(value: T) | Err(msg: string)

  /** A call that either returns or panics (`panic!`, `unreachable!`, `todo!`, `expect`, `unwrap`). */
  datatype Outcome<T> = Returns(value: T) | Panics
}
