/** The conventional optional-value datatype, for arguments the caller may omit. */
module Wrappers {

  datatype Option<+T> = None | Some(value: T)
}
