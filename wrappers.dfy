/** The optional value used for the calculator's nullable state and for
    operations that the JavaScript runtime can abort with an exception. */
module Wrappers {
  datatype Option<+T> = None | Some(value: T)
}
