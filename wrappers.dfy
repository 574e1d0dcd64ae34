/** Optional values, used where the source works with a nullable reference. */
module Wrappers {
  datatype Option<+T> = None | Some(value: T)
}
