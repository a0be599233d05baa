/** Optional values, standing in for JavaScript's `null`/`undefined` and
    Python's `None` where the model needs to tell them apart from a value. */
module Wrappers {

  datatype Option<+T> = None | Some(value: T) {

    /** Returns the value held in Some, or `default` when None. */
    function GetOr(default: T): T {
      match this
      case Some(v) => v
      case None => default
    }
  }

  /** Truthiness of an optional string, in JavaScript and Python alike: a
      value is present and it is not the empty string. */
  predicate Truthy(o: Option<string>) {
    o.Some? && o.value != ""
  }
}
