/** An optional value: `undefined` (or a missing key) on the JavaScript side is `None`. */
module Wrappers {

  datatype Option<+T> = None | Some(value: T)

}
