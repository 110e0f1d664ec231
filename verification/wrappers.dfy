/** Optional values: the model's stand-in for Python's `None` and pandas' NaN/NaT. */
module Wrappers {

  datatype Option<+T> = None | Some(value: T)
}
