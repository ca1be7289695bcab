/** Failure-compatible wrappers: a nullable reference becomes an Option, a call that may
    throw becomes a Result (a value or the exception it throws) or an Outcome (no value). */
module Wrappers {

  datatype Option<+T> = None | Some(value: T) {
    function GetOr(default: T): T {
      match this
      case Some(v) => v
      case None => default
    }
  }

  datatype Result<+R, +E> = Success(value: R) | Failure(error: E)

  datatype Outcome<+E> = Pass | Fail(error: E)

  /** `string.IsNullOrEmpty`: a null reference or the empty string. */
  predicate IsNullOrEmpty(s: Option<string>) {
    s.None? || s.value == ""
  }
}
