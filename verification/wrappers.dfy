/** The optional value used for JavaScript's `undefined`, `null` and `-1`-for-absent results. */
module Wrappers {
  datatype Option<+T> = None | Some(value: T)
}
