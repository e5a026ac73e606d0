/** Optional values: a JavaScript `undefined` or `null` is `None`. */
module Wrappers {
  datatype Option<+T> = None | Some(value: T) {
    /** `v ?? d` */
    function GetOr(default: T): T {
      match this
      case Some(v) => v
      case None => default
    }
  }
}
