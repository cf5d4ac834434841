/** Option and Result, the two shapes every JavaScript `null` and `throw` of the
    application is modelled with. */
module Wrappers {

  datatype Option<+T> = None | Some(value: T)

  datatype Result<+T, +E> = Ok(value: T) | Err(error: E)
}
