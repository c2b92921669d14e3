/** Optional values: Python's `None` versus a present value. */
module Wrappers {

  datatype Option<+T> = None | Some(value: T) {

    /** The present value, or `default` for `None`. */
    function GetOr(default: T): T {
      match this
      case Some(v) => v
      case None => default
    }
  }
}
