/** An optional value: PHP's "a value, or false/null" returns. */
module Wrappers {

  datatype Option<+T> = None | Some(value: T)
}
