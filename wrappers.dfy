/** The optional value used for every field or argument that JavaScript may
    leave `undefined`. */
module Wrappers {

  datatype Option<+T> = None | Some(value: T)
}
