/** Optional values: `None` stands for the C# `null` the source returns or stores. */
module Wrappers {

  datatype Option<+T> = None | Some(value: T)
}
