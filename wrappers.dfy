/** Failure-compatible result types shared by the modules of this model. */
module Wrappers {

  /** An optional value; `None` stands for JavaScript's `undefined`/`null` or for NaN, as each use says. */
  datatype Option<+T> = None | Some(value: T)

  /** The outcome of an operation that may throw: `Err` carries the error. */
  datatype Result<+T, +E> = Ok(value: T) | Err(error: E)
}
