/** Failure-carrying wrappers shared by every module of the model. */
module Wrappers {

  /** A value that may be absent: `undefined`/`null` in TypeScript, `Option` in Rust. */
  datatype Option<+T> = None | Some(value: T)

  /** The outcome of an operation that can fail: a resolved value or a thrown/returned error. */
  datatype Result<+T, +E> = Ok(value: T) | Err(error: E)
}
