/** Failure-carrying values shared by the rest of the model. */
module Outcomes {

  /** A value that may be absent, such as a key missing from a Python dict. */
  datatype Option<+T> = None | Some(value: T)

  /** The result of a store operation: a value, or the error the store raised. */
  datatype Result<+T, +E> = Ok(value: T) | Err(error: E)
}
