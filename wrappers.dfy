/** Optional values and results with an error, used for the source's nullable
    values, exceptions and `anyhow::Result` returns. */
module Wrappers {

  datatype Option<+T> = None | Some(value: T)

  datatype Result<+T, +E> = Ok(value: T) | Err(error: E)
}
