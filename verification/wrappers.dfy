/** An optional value: which slot of a one-hot group fires, if any. */
module Wrappers {

  datatype Option<+T> = None | Some(value: T)

}
