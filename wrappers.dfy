/** Option and Result, used for the route's optional parameters and for the
    one failure the handler's own code can raise. */
module Wrappers {

  datatype Option<+T> = None | Some(value: T)

  datatype Result<+T, +E> = Ok(value: T) | Err(error: E)
}
