/** Optional values, standing for Go's nil pointers and `value, found` lookups. */
module Wrappers {
  datatype Option<+T> = None | Some(value: T)
}
