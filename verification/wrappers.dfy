/** Optional values: a Go reference or callback that may be nil. */
module Wrappers {

  datatype Option<+T> = None | Some(value: T)
}
