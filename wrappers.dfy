/** Optional values and results with an error, used where the modelled code
    reads a property that may be `undefined` or calls a tensor operation that
    may throw. */
module Wrappers {
  datatype Option<T> = None | Some(value: T)

  datatype Result<T, E> = Ok(value: T) | Err(error: E)
}
