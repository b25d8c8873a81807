/** The optional value used wherever the program has a null pointer or a boost::optional. */
module Wrappers {
  datatype Option<+T> = None | Some(value: T)
}
