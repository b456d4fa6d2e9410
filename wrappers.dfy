/** Optional values: JavaScript's `null`/`undefined` slots of a callback. */
module Wrappers {
  datatype Option<+T> = None | Some(value: T)
}
