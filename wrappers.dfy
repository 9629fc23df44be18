/** The optional value used for the results of the SDK calls and for error returns. */
module Wrappers {

  datatype Option<+T> = None | Some(value: T)
}
