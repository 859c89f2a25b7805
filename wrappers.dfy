/** The nullable-value datatype used wherever the engine passes a pointer that
    may be null or a std::optional that may be empty. */
module Wrappers {

  datatype Option<+T> = None | Some(value: T) {

    /** Returns the value in Some, or `default` when None. */
    function GetOr(default: T): T {
      match this
      case Some(v) => v
      case None => default
    }
  }
}
