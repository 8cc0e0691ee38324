/** Optional values, used for the engine's null pointers and missing entries. */
module Wrappers {

  datatype Option<T> = None | Some(value: T)
}
