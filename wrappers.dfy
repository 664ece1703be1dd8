/** Optional values: the model's stand-in for a pointer that may be null
    and for an output that may be missing. */
module Wrappers {

  datatype Option<+T> = None | Some(value: T)
}
