/** Optional values: the model's stand-in for `T | null | undefined`. */
module Wrappers {

  datatype Option<+T> = None | Some(value: T) {

    /** The value if present, else `default`: the `??` operator. */
    function GetOr(default: T): T {
      match this
      case Some(v) => v
      case None => default
    }
  }
}
