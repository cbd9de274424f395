/** Optional values: a missing request field, a lookup that finds nothing, JavaScript's NaN. */
module Wrappers {

  datatype Option<+T> = None | Some(value: T)
  {
    function GetOr(default: T): T
    {
      match this
      case Some(v) => v
      case None => default
    }
  }
}
