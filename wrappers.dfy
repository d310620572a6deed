/** Option and Result values used wherever the source returns `null`/`undefined` or throws. */
module Wrappers {

  datatype Option<+T> = None | Some(value: T) {

    /** The `??` operator: the value when present, else the default. */
    function GetOr(default: T): T {
      match this
      case Some(v) => v
      case None => default
    }
  }

  /** A call that either yields a value or fails (a thrown error in the source). */
  datatype Result<+T, +E> = Ok(value: T) | Err(error: E)
}
