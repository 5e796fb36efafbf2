/** Optional values: `None` stands for JavaScript's `undefined` wherever a value may be missing. */
module Wrappers {
  datatype Option<+T> = None | Some(value: T)
}
