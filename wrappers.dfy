/** Optional values: a lookup that may find nothing, an error that may be absent. */
module Wrappers {

  datatype Option<+T> = None | Some(value: T)
}
