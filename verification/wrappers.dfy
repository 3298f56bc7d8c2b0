/** The optional value used where the program keeps a nullable value. */
module Wrappers {

  datatype Option<+T> = None | Some(value: T)
}
