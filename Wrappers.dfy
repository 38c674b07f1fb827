/** Failure-compatible wrappers shared by the model: an optional value (Python's `X | None`),
    a value-or-exception result, and a pass-or-exception outcome for procedures. */
module Wrappers {

  datatype Option<+T> = None | Some(value: T)

  datatype Result<+T, +E> = Success(value: T) | Failure(error: E)

  datatype Outcome<+E> = Pass | Fail(error: E)
}
