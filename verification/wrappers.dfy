/** Optional values: the model's stand-in for `null`, `undefined` and absent keys. */
module Wrappers {

  datatype Option<+T> = None | Some(value: T) {

    /** The value when present, `default` otherwise. */
    function GetOr(default: T): T {
      match this
      case Some(v) => v
      case None => default
    }
  }
}
