/** Optional values and results with an error, shared by the other modules. */
module Wrappers {

  /** An absent value (a missing storage key, an unset field) or a present one. */
  datatype Option<+T> = None | Some(value: T)

  /** The value of an operation that either succeeds or throws an error. */
  datatype Result<+T, +E> = Ok(value: T) | Err(error: E)
}
