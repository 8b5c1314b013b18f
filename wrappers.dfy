/** Option and Result: the optional value and the value-or-error used by every module. */
module Wrappers {

  /** An optional value: `None` stands for JavaScript's `null`/`undefined`. */
  datatype Option<+T> = None | Some(value: T)

  /** The outcome of an operation that can throw: `Err` carries the thrown message. */
  datatype Result<+T, +E> = Ok(value: T) | Err(error: E)
}
