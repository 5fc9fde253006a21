/** Optional values: `None` stands for the source's undefined outcomes
    (a division by zero that yields nan, an exception the source raises). */
module Wrappers {
  datatype Option<+T> = None | Some(value: T)
}
