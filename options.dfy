/** Optional values: a script argument, field or return value that may be undefined or null. */
module Options {

  datatype Option<T> = None | Some(value: T) {

    /** The value, or `default` when absent: the `if (isNull(x)) x = default;` idiom of the scripts. */
    function GetOr(default: T): T {
      if Some? then value else default
    }
  }
}
