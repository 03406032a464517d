/** An optional value, used where the program works with `None`. */
module Wrappers {

  datatype Option<+T> = None | Some(value: T)

}
