/** The optional value used for the nullable fields of the data model. */
module Wrappers {

  datatype Option<+T> = None | Some(value: T)
}
