/** Optional values: a reading that may be missing (NaN) or a value that may be absent. */
module Wrappers {

  datatype Option<+T> = None | Some(value: T)
}
