/** The optional-value wrapper used for Python's `None`. */
module Wrappers {

  datatype Option<+T> = None | Some(value: T)
}
