/** The optional value used where the dashboard returns `undefined`
    (an `Array.prototype.find` that matched nothing). */
module Wrappers {

  datatype Option<+T> = None | Some(value: T)
}
