/** Optional values: a dictionary key that may be absent, a value that may be None. */
module Wrappers {
  datatype Option<+T> = None | Some(value: T)
}
