/** The optional value used where the Java code passes a nullable reference. */
module Wrappers {

  datatype Option<+T> = None | Some(value: T)
}
