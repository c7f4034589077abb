/** Failure-compatible wrappers shared by the model: a value that may be absent
    (Python's `None`), a computation that may raise, and an action that may raise. */
module Wrappers {

  datatype Option<+T> = None | Some(value: T)

  datatype Result<+T, +E> = Ok(value: T) | Err(error: E)

  datatype Outcome<+E> = Pass | Fail(error: E)
}
