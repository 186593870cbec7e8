/** Optional values, standing for a key that may be absent (`undefined`). */
module Wrappers {
  datatype Option<+T> = None | Some(value: T)
}
