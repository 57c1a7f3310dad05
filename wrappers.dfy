/** The optional value used for Go's nil results and failed conversions. */
module Wrappers {

  datatype Option<+T> = None | Some(value: T)
}
