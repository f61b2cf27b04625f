/** Optional values, standing for the `undefined` and `null` results of the source. */
module Wrappers {
  datatype Option<+T> = None | Some(value: T)
}
