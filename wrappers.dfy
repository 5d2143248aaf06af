/** The optional value the source writes as `T | null` (and `undefined` from `find`). */
module Wrappers {
  datatype Option<T> = None | Some(value: T)
}
