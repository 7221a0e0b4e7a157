/** Optional values, for Python's `None` and for `dict.get` misses. */
module Wrappers {
  datatype Option<+T> = None | Some(value: T)
}
