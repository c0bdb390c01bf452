/** Failure-aware value wrappers used throughout the model. */
module Wrappers {

  /** A value that may be missing (Python's `None`). */
  datatype Option<+T> = None | Some(value: T) {
    function GetOr(default: T): T {
      match this
      case Some(v) => v
      case None => default
    }
  }

  /** The outcome of a call that may raise: a value or the raised failure. */
  datatype Result<+T, +E> = Ok(value: T) | Err(error: E)

  /** A dictionary entry whose absence and explicit `null` the source treats
      differently: `d.get(k, default)` substitutes the default only for an
      absent key, while a present `null` is returned as it is. */
  datatype Field<+T> = Absent | Null | Present(value: T)
}
