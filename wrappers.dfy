/** Optional values, for JavaScript's `null`/`undefined` fields and props. */
module Wrappers {
  datatype Option<T> = None | Some(value: T)
}
