/** Optional values. In the JavaScript-facing modules `None` stands for
    `undefined`; in the Python-facing module it stands for "no such key". */
module Wrappers {

  datatype Option<+T> = None | Some(value: T) {

    /** The wrapped value, or `default` when there is none. */
    function GetOr(default: T): T {
      match this
      case Some(v) => v
      case None => default
    }
  }
}
