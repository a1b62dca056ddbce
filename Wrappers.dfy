/** Optional values: Go's nil-able results (a *Response that may be nil, an error that may be nil). */
module Wrappers {

  datatype Option<+T> = None | Some(value: T)
}
