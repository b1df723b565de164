/** An optional value: `None` stands for a JavaScript option that is `undefined`. */
module Wrappers {

  datatype Option<+T> = None | Some(value: T)
}
