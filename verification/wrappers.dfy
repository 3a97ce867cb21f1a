/** Optional values. `None` stands for JavaScript's `undefined` (an omitted
    argument) or `null` (a sentinel result), depending on where it is used. */
module Wrappers {

  datatype Option<+T> = None | Some(value: T)
}
