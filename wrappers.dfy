/** Optional values: `None` stands for JavaScript's `undefined`/missing value. */
module Wrappers {
  datatype Option<+T> = None | Some(value: T)
}
