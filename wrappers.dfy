/** Optional values, used wherever the C code can fail or files can be absent. */
module Wrappers {
  datatype Option<T> = None | Some(value: T)
}
