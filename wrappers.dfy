/** The optional value of the Python code: a value, or `None`. */
module Wrappers {

  datatype Option<+T> = None | Some(value: T)
}
