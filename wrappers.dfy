/** Optional values: a Go `error` (nil or not), a pointer that may be nil. */
module Wrappers {

  datatype Option<T> = None | Some(value: T)
}
