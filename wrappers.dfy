/** Option and Result: a JSON value that may be null or absent, and a call that either
    returns a value or raises one of the exceptions the connectors let escape. */
module Wrappers {

  datatype Option<+T> = None | Some(value: T)

  datatype Result<+T, +E> = Ok(value: T) | Err(error: E)
}
