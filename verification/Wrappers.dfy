/** Results and optional values shared by the modules. */
module Wrappers {
  datatype Option<+T> = None | Some(value: T)

  /** A value, or the fixed error code the service answers with. */
  datatype Result<+T, +E> = Ok(value: T) | Err(error: E)
}
