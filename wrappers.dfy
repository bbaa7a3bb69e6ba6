/** Failure-compatible wrappers shared by the model: an optional value, a
    value-or-error result, and a pass-or-fail outcome for operations whose
    Python counterpart returns None or raises. */
module Wrappers {

  datatype Option<+T> = None | Some(value: T)

  datatype Result<+R, +E> = Success(value: R) | Failure(error: E)

  /** `Pass` is a normal return of None; `Fail(e)` is an exception `e` that
      propagates to the caller. */
  datatype Outcome<+E> = Pass | Fail(error: E)
}
