/** Success-or-failure and optional values, used where the source throws or reads `undefined`. */
module Wrappers {

  datatype Option<T> = None | Some(value: T)

  datatype Result<T, E> = Ok(value: T) | Err(error: E)
}
