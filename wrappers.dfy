/** The optional value used where the application reads a dictionary with `.get`. */
module Wrappers {

  datatype Option<+T> = None | Some(value: T)
}
