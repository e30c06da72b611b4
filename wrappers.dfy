/** The optional value used for the document store's `null` results. */
module Wrappers {

  datatype Option<+T> = None | Some(value: T)
}
