/** Optional values: `None` stands for JavaScript's `null` or `undefined`. */
module Wrappers {

  datatype Option<+T> = None | Some(value: T) {

    /** JavaScript's `x ?? d`: the value when there is one, the default otherwise. */
    function GetOr(default: T): T {
      match this
      case Some(v) => v
      case None => default
    }
  }
}
