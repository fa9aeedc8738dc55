/** Optional values: `None` stands for Python's `None` and for a pandas NaN cell. */
module Wrappers {

  datatype Option<T> = None | Some(value: T)
}
