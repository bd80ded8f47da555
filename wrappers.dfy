/** Optional values: an empty pipeline slot, a missing program entry. */
module Wrappers {

  datatype Option<+T> = None | Some(value: T)
}
