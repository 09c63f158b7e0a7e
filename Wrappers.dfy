/** Option, standing in for the source's nullable references and values. */
module Wrappers {

  datatype Option<+T> = None | Some(value: T)
}
