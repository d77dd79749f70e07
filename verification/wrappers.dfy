/** Optional values: JavaScript's `null` for a selection that has not been made. */
module Wrappers {

  datatype Option<+T> = None | Some(value: T)
}
