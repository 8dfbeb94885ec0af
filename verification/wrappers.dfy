/** Option: an explicit "absent" value where the modelled code would return null. */
module Wrappers {

  datatype Option<+T> = None | Some(value: T)

  /** The outcome of an operation that may fault, such as an array access out of bounds. */
  datatype Result<+R, +E> = Ok(value: R) | Err(error: E)
}
