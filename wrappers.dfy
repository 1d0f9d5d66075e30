/** Optional values and results with an error message, used across the model. */
module Wrappers {

  /** A value that may be absent (`null` / `undefined` in the source). */
  datatype Option<+T> = None | Some(value: T)

  /** An outcome that is either a value or an error message. */
  datatype Result<+T> = Ok(value: T) | Err(error: string)
}
