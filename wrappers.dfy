/** The optional value that a dictionary `.get` returns: a record, or `None`. */
module Wrappers {

  datatype Option<+T> = None | Some(value: T)

}
