/** Optional values and results with an error, used wherever the app either
    produces a value or shows an alert instead. */
module Wrappers {
  datatype Option<+T> = None | Some(value: T)

  datatype Result<+T, +E> = Ok(value: T) | Err(error: E)
}
