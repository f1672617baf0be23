/** The optional-value datatype used for `undefined`, `null` and "not found" results. */
module Wrappers {

  datatype Option<T> = None | Some(value: T)
}
