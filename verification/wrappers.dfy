/** Optional values: the model's stand-in for `undefined`, an absent
    optional argument, and the NaN an empty division produces. */
module Wrappers {

  datatype Option<+T> = None | Some(value: T)
}
