/** Optional values: a DOM lookup that may find nothing, a storage key that may be unset. */
module Wrappers {

  datatype Option<+T> = None | Some(value: T)

}
