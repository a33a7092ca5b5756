/** The optional value used for dictionary lookups that may fail and for operations that may raise. */
module Wrappers {

  datatype Option<+T> = None | Some(value: T)
}
