/** Optional values: the source's `None`. */
module Wrappers {
  datatype Option<+T> = None | Some(value: T) {
    /** The source's `x or default`, for a type whose values are all truthy. */
    function GetOr(default: T): T {
      match this
      case Some(v) => v
      case None => default
    }
  }
}
