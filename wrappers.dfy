/** Option and Result, used for the Python `None` values, the missing dictionary
    keys and the `ValueError` that `datetime.replace` raises. */
module Wrappers {
  datatype Option<+T> = None | Some(value: T)

  datatype Result<+T, +E> = Ok(value: T) | Err(error: E)
}
