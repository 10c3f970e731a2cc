/** Optional values: a nullable column, a lookup that may miss. */
module Wrappers {

  datatype Option<+T> = None | Some(value: T) {

    /** The value, or `default` when there is none (Python's `x or default`). */
    function GetOr(default: T): T
    {
      match this
      case Some(v) => v
      case None => default
    }
  }

  /** Python truthiness of an optional integer id: `None` and `0` are both falsy. */
  predicate Truthy(x: Option<int>)
  {
    x.Some? && x.value != 0
  }
}
