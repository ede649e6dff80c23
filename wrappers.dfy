/** Optional values, used wherever the Python code calls `dict.get` or may find nothing. */
module Wrappers {

  datatype Option<+T> = None | Some(value: T) {

    /** The value in Some, or `default` when None (Python's `d.get(k, default)`). */
    function GetOr(default: T): T
    {
      match this
      case Some(v) => v
      case None => default
    }
  }
}
