/** Optional values: JavaScript's `null` / `undefined` for the cells the source may leave unset. */
module Wrappers {
  datatype Option<+T> = None | Some(value: T) {
    function GetOr(default: T): T {
      match this
      case Some(v) => v
      case None => default
    }
  }
}
