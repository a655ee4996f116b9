/** Optional values: Python's `None` versus a present value. */
module Wrappers {

  datatype Option<T> = None | Some(value: T) {

    /** The value when present, otherwise `default` (Python's `d.get(k, default)` idiom). */
    function GetOr(default: T): T
    {
      match this
      case Some(v) => v
      case None => default
    }
  }
}
