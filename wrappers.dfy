/** Optional values: a missing map entry, a null reference or an undefined JavaScript field. */
module Wrappers {

  datatype Option<+T> = None | Some(value: T)
  {
    function GetOr(default: T): T {
      match this
      case Some(v) => v
      case None => default
    }
  }
}
