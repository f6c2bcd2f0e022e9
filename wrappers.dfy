/** Option and Result values used throughout the model for Python's `None`
    and for the exceptions a source function raises instead of returning. */
module Wrappers {

  datatype Option<+T> = None | Some(value: T)

  datatype Result<+T, +E> = Ok(value: T) | Err(error: E)
}
