/** Optional values and error returns, used where the Go code has a nil
    reference, a nil interface or a (value, error) pair. */
module Util {

  datatype Option<+T> = None | Some(value: T)

  datatype Result<+T, +E> = Ok(value: T) | Err(error: E)
}
