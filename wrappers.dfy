/** Failure-compatible wrappers: an empty-or-one slot, a value-or-error result, and a
    pass-or-fail outcome for operations that return nothing but may throw. */
module Wrappers {

  datatype Option<+T> = None | Some(value: T)

  datatype Result<+R, +E> = Success(value: R) | Failure(error: E)

  datatype Outcome<+E> = Pass | Fail(error: E)
}
