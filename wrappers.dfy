/** Optional values and results with an error, used for the read-back row and for
    the exceptions the allocator raises. */
module Wrappers {

  datatype Option<+T> = None | Some(value: T)

  datatype Result<+R, +E> = Ok(value: R) | Err(error: E)
}
