/** Optional values: `None` stands for JavaScript's `null` or for `NaN`, depending on the field. */
module Wrappers {
  datatype Option<+T> = None | Some(value: T)
}
