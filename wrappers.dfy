/** Python's None, as an optional value. */
module Wrappers {

  datatype Option<+T> = None | Some(value: T) {

    /** `d.get(key, default)`: the value when present, the default otherwise */
    function GetOr(default: T): T {
      match this
      case Some(v) => v
      case None => default
    }
  }
}
