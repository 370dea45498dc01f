/** Optional and fallible values shared by every module of the model. */
module Wrappers {
  datatype Option<+T> = None | Some(value: T)

  /** The operator's Go functions return `(value, error)`; error texts are not modelled. */
  datatype Result<+T> = Ok(value: T) | Err
}
