/** Optional values and results with an error, shared by the other modules. */
module Wrappers {

  /** `undefined`/`null` in the source become `None`. */
  datatype Option<+T> = None | Some(value: T)

  /** A statement or transaction either produces a value or fails with an error. */
  datatype Result<+T, +E> = Ok(value: T) | Err(error: E)
}
