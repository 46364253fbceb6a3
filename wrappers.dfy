/** Optional values and error results, used wherever the source returns a
    default, raises, or reports an error inside a result. */
module Wrappers {

  datatype Option<+T> = None | Some(value: T)

  datatype Result<+T> = Ok(value: T) | Err(error: string)
}
