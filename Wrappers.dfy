/** The optional value used for absent storage records, absent sessions and absent matches. */
module Wrappers {
  datatype Option<+T> = None | Some(value: T)
}
