/** Optional values and results with an error path, shared by the storefront modules. */
module Wrappers {

  /** A value that may be missing (`undefined`, `null`, or a falsy field in the source). */
  datatype Option<T> = None | Some(value: T)

  /** The outcome of an operation that can fail. */
  datatype Result<T, E> = Ok(value: T) | Err(error: E)
}
