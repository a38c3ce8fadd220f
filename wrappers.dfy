/** Optional values, standing for JavaScript's `undefined` and for a failed numeric coercion. */
module Wrappers {

  datatype Option<+T> = None | Some(value: T)
}
