/** Optional values: a Python value that may be None, or a field that may be absent. */
module Wrappers {

  datatype Option<+T> = None | Some(value: T)
  {
    /** The value, or `default` when there is none (Python's `d.get(key, default)`). */
    function GetOr(default: T): T
    {
      match this
      case Some(v) => v
      case None => default
    }
  }
}
