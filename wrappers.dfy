/** Option and Result, the model's stand-ins for Python's `None` and for an
    exception that a caller catches. */
module Wrappers {

  datatype Option<+T> = None | Some(value: T)

  datatype Result<+T> = Ok(value: T) | Err(error: string) {
    predicate IsFailure() { Err? }
  }
}
