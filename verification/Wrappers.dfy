/** Optional values, used wherever the source stores null or returns nothing. */
module Wrappers {

  datatype Option<+T> = None | Some(value: T)
}
