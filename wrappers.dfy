/** Optional values, used for the fields a partial state update leaves out. */
module Wrappers {
  datatype Option<+T> = None | Some(value: T)
}
