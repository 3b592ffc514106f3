/** Optional values, used where the shopping system reports "nothing there"
    (an empty order history, an empty processing queue). */
module Wrappers {

  datatype Option<+T> = None | Some(value: T)
}
