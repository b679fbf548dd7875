module Wrappers {
  datatype Option<+T> = None | Some(value: T)

  /** The outcome of code that may throw. */
  datatype Result<+T> = Ok(value: T) | Thrown
}
