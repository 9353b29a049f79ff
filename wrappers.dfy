/** Optional values, used where JavaScript produces NaN. */
module Wrappers {
  datatype Option<+T> = None | Some(value: T)
}
