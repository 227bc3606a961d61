/** Optional values and results with an error case, used in place of
    Python's `None` and raised exceptions. */
module Wrappers {

  /** An optional value, as Python's `Optional[T]`. */
  datatype Option<+T> = None | Some(value: T)

  /** The outcome of an operation that either returns a value or raises. */
  datatype Result<+T, +E> = Ok(value: T) | Err(error: E)
}
