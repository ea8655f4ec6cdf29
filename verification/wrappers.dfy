/** The optional-value type shared by the fetch capability and the loop body. */
module Wrappers {

  datatype Option<+T> = None | Some(value: T)
}
