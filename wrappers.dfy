/** The optional-value type used for Go's nillable results (a nil `error`). */
module Wrappers {

  datatype Option<+T> = None | Some(value: T)
}
