/** Optional values, used wherever the viewer reads something that may be absent or invalid. */
module Wrappers {
  datatype Option<+T> = None | Some(value: T)
}
