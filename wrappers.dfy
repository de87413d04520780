/** Optional values: a missing key, a date that could not be parsed. */
module Wrappers {

  datatype Option<+T> = None | Some(value: T)
}
