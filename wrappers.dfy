/** Optional values: `None` stands for the empty `{}` placeholder the source
    returns where there is no task to report. */
module Wrappers {

  datatype Option<+T> = None | Some(value: T)
}
