/** Optional values and results with an error, as the Python code's `None` and
    raised exceptions are modelled throughout the project. */
module Wrappers {

  datatype Option<+T> = None | Some(value: T)

  datatype Result<+T, +E> = Ok(value: T) | Err(error: E)
}
