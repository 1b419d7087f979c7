/** Optional values and validation results shared by the modules below. */
module Wrappers {

  /** Python's `Optional[T]`: `None` or a present value. */
  datatype Option<+T> = None | Some(value: T)

  /** The outcome of validating raw input: a value, or the errors found. */
  datatype Result<+T, +E> = Ok(value: T) | Err(error: E)
}
