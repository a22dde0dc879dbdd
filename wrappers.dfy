/** An optional value: the model's stand-in for a prop the caller may leave undefined. */
module Wrappers {

  datatype Option<T> = None | Some(value: T) {

    /** The value if present, otherwise the given default. */
    function GetOr(default: T): T
    {
      match this
      case Some(v) => v
      case None => default
    }
  }
}
