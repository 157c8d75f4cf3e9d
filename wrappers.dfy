/** The optional value used for record fields that a decoded export may leave out. */
module Wrappers {

  datatype Option<+T> = None | Some(value: T)

}
