/** Failure-compatible wrappers shared by the modules of this model: a nullable
    value (Option), a value or an exception (Result), and a check that either
    passes or raises (Outcome). */
module Wrappers {

  datatype Option<+T> = None | Some(value: T) {
    /** JavaScript's `x ?? d` and Guava's `Strings.nullToEmpty`. */
    function GetOr(default: T): T {
      match this
      case Some(v) => v
      case None => default
    }
  }

  datatype Result<+T, +E> = Success(value: T) | Failure(error: E)

  datatype Outcome<+E> = Pass | Fail(error: E)
}
