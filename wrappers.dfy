/** Optional values: JavaScript's `undefined` / `null` results and absent files. */
module Wrappers {
  datatype Option<+T> = None | Some(value: T)
}
