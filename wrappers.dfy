/** The optional value used for JavaScript's `undefined`, `null` and the empty selection. */
module Wrappers {
  datatype Option<+T> = None | Some(value: T)
}
