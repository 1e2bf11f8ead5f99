/** Optional values: a record field the JSON store may leave out. */
module Wrappers {
  datatype Option<+T> = None | Some(value: T)
}
