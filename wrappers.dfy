/** The optional value shared by the modules of the driver model. */
module Wrappers {

  datatype Option<T> = None | Some(value: T)
}
