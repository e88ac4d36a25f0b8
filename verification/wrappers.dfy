/** Optional values: a JavaScript `null`/`undefined` or a pool that had nothing to hand out. */
module Wrappers {
  datatype Option<+T> = None | Some(value: T)
}
