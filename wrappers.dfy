/** Optional values: `None` stands for JavaScript's `null`, `undefined` and, for the
    numeric form fields, the empty string. */
module Wrappers {

  datatype Option<+T> = None | Some(value: T) {

    /** The value, or `default` when absent. */
    function GetOr(default: T): T {
      match this
      case Some(v) => v
      case None => default
    }
  }
}
