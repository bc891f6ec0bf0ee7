/** Optional values: Java's nullable references. */
module Wrappers {
  datatype Option<T> = None | Some(value: T) {
    /** `Map.getOrDefault`-style access. */
    function GetOr(default: T): T {
      if Some? then value else default
    }
  }
}
