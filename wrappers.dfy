/** The optional value used wherever the source can hold a null reference
    or an operation can fail to produce a value. */
module Wrappers {

  datatype Option<+T> = None | Some(value: T)
}
