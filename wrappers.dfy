/** The conventional optional value: `None` stands for JavaScript's `undefined`/`null`. */
module Wrappers {

  datatype Option<+T> = None | Some(value: T)

}
