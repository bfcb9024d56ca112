/** Optional values: `None` stands for JavaScript's `undefined`, `null` or `NaN`
    wherever the dashboard reads a value that may be missing. */
module Wrappers {

  datatype Option<+T> = None | Some(value: T)
}
