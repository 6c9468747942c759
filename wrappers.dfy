/** Option and Result datatypes used for nullable columns and for the
    not-found and validation outcomes of the views and forms. */
module Wrappers {

  datatype Option<+T> = None | Some(value: T)

  datatype Result<+T, +E> = Ok(value: T) | Err(error: E)
}
