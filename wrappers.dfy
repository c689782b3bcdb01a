/** Optional values: `None` stands for JavaScript's `null` (or for a lookup that finds nothing). */
module Wrappers {

  datatype Option<+T> = None | Some(value: T)
}
