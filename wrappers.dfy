/** Optional values: JavaScript's `null` / `undefined` where the source uses them as "no value". */
module Wrappers {

  datatype Option<+T> = None | Some(value: T)
}
