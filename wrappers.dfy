/** Optional values: a Go result that may be absent (a missing map entry, a nil node). */
module Wrappers {
  datatype Option<T> = None | Some(value: T)
}
