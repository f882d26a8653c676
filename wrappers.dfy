/** The optional value used wherever the Python code may hold `None`. */
module Wrappers {

  datatype Option<T> = None | Some(value: T)
}
