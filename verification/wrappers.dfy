/** The two result types that every module of this project shares. */
module Wrappers {
  datatype Option<+T> = None | Some(value: T) {
    function GetOr(default: T): T {
      match this
      case Some(v) => v
      case None => default
    }
  }

  /** The answer of an operation that either returns or throws. */
  datatype Reply<+T, +E> = Ok(value: T) | Throw(error: E)
}
