/** Optional values, standing for Python's `Optional[...]` and `None`. */
module Wrappers {

  datatype Option<T> = None | Some(value: T)
}
