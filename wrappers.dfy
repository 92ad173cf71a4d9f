/** Optional values. Where the Java code uses a reference that may be null
    (a String field that was never set, a list that failed to decode), the
    model uses `None`. */
module Wrappers {

  datatype Option<+T> = None | Some(value: T)
}
