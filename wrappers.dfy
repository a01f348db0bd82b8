/** The optional value used wherever the source leaves an attribute unset or a lookup empty. */
module Wrappers {

  datatype Option<+T> = None | Some(value: T)

}
