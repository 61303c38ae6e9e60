/** Optional values, used for the error returns of the decoder and the file system. */
module Wrappers {

  datatype Option<+T> = None | Some(value: T)
}
