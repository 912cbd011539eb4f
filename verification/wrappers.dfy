/** The optional value the Python code expresses with Python's `None`. */
module Wrappers {

  datatype Option<+T> = None | Some(value: T)
}
