/** Optional values and results with an error, used wherever the source
    works with `null`/`undefined` or with a `{ data, error }` response. */
module Wrappers {

  datatype Option<+T> = None | Some(value: T)

  datatype Result<+T, +E> = Ok(value: T) | Err(error: E)
}
