/** Optional values: JavaScript's `null`/`false` results become `None`. */
module Wrappers {
  datatype Option<+T> = None | Some(value: T)
}
