/** Option and Result, used for the places where the backend either skips a record
    (a caught exception) or lets an exception escape to its caller. */
module Wrappers {

  datatype Option<+T> = None | Some(value: T)

  datatype Result<+T, +E> = Ok(value: T) | Err(error: E)
}
