/** Optional values: JavaScript's `null`/`undefined` results and `find` misses. */
module Wrappers {

  datatype Option<+T> = None | Some(value: T)
}
