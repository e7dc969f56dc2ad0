/** Optional values, standing in for JavaScript fields that may be absent
    (`undefined` or `null`) in a parsed response body. */
module Wrappers {

  datatype Option<+T> = None | Some(value: T) {

    /** The wrapped value, or `default` when absent: the `x || default`
        idiom applied to a field that is either missing or present. */
    function GetOr(default: T): T
    {
      match this
      case Some(v) => v
      case None => default
    }
  }
}
