/** The optional value used for blank form fields and absent rows. */
module Wrappers {
  datatype Option<+T> = None | Some(value: T)
}
