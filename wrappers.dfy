/** Optional values: Python's `None` versus a present value. */
module Wrappers {

  datatype Option<+T> = None | Some(value: T) {

    /** The present value, or `default` when there is none (Python's `d.get(k, default)`). */
    function GetOr(default: T): T {
      match this
      case Some(v) => v
      case None => default
    }
  }
}
