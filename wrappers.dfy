/** The optional value used wherever the Java code holds a possibly-null
    reference or can fail with an exception. */
module Wrappers {
  datatype Option<+T> = None | Some(value: T)
}
