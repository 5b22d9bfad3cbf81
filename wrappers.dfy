/** Optional values: Python's `Optional[...]`, where `None` is the absent value. */
module Wrappers {
  datatype Option<T> = None | Some(value: T)
}
