/** An optional value: `None` stands for a property that a JavaScript object
    does not carry (or carries as `undefined`). */
module Wrappers {

  datatype Option<+T> = None | Some(value: T)
}
