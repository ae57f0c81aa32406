/** Option and Result types used for the optional values and error returns of the services. */
module Wrappers {

  datatype Option<+T> = None | Some(value: T)

  /** The `Result<T, E>` of the services: either a value or an error tag. */
  datatype Result<+T, +E> = Ok(value: T) | Err(error: E)
}
