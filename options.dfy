/** Optional values: JavaScript's `null`/`undefined` results and failed
    conversions, kept apart from the values that are present. */
module Options {

  datatype Option<+T> = None | Some(value: T) {

    /** The value, or `default` when absent (the `x || default` idiom on a
        value that is either absent or truthy). */
    function GetOr(default: T): T {
      match this
      case Some(v) => v
      case None => default
    }
  }
}
