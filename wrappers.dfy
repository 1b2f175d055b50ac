/** Optional values, for a cache entry that may be absent. */
module Wrappers {
  datatype Option<+T> = None | Some(value: T)
}
