/** Optional values: `None` stands for JavaScript's `null` (a missing store entry)
    or, for numbers, for `NaN`. */
module Wrappers {

  datatype Option<+T> = None | Some(value: T)

}
