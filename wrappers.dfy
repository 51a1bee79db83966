/** The optional value used wherever the client reads something that may be
    `null` or `undefined` (a missing storage entry, an absent field). */
module Wrappers {

  datatype Option<+T> = None | Some(value: T)
}
