/** Option and Result, the two shapes the Rust code returns. */
module Wrappers {

  datatype Option<+T> = None | Some(value: T) {

    /** Rust `Option::unwrap_or`. */
    function GetOr(default: T): T {
      match this
      case Some(v) => v
      case None => default
    }
  }

  datatype Result<+T, +E> = Ok(value: T) | Err(error: E)
}
