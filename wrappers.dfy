/** Optional values: an absent camera, offscreen target or nested pass. */
module Wrappers {
  datatype Option<+T> = None | Some(value: T)
}
