/** Optional values and success-or-error results, shared by the pricing model and the article catalog. */
module Wrappers {

  /** A value that may be absent (`undefined` in TypeScript). */
  datatype Option<+T> = None | Some(value: T)

  /** The outcome of an operation that either succeeds with a value or reports an error. */
  datatype Result<+T, +E> = Ok(value: T) | Err(error: E)
}
