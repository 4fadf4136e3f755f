/** The two shapes of a missing value and of a thrown error. */
module Wrappers {
  datatype Option<+T> = None | Some(value: T)

  datatype Result<+T, +E> = Ok(result: T) | Err(error: E)
}
