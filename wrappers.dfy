/** Optional values and results with an error, shared by the other modules. */
module Wrappers {

  /** A value that may be missing: JavaScript's `undefined` where the source can meet it. */
  datatype Option<+T> = None | Some(value: T)

  /** The outcome of an evaluation that can throw. */
  datatype Result<+R, +E> = Ok(value: R) | Err(error: E)
}
