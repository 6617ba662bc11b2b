/** Optional values: a frame with or without a detected hand, a gesture or none,
    an unset scroll anchor or lock direction. */
module Wrappers {

  datatype Option<+T> = None | Some(value: T)
}
