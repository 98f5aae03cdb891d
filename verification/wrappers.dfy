/** A value that may be absent: the model's stand-in for a nullable
    reference (`results` before the first calculation) and for a number
    that could not be parsed. */
module Wrappers {

  datatype Option<+T> = None | Some(value: T) {

    /** The wrapped value, or `default` when there is none. */
    function GetOr(default: T): T {
      match this
      case Some(v) => v
      case None => default
    }
  }
}
