/** A value that may be absent: a JSON field that is missing or null, a URL query
    parameter that is not present, an environment variable that is not set. */
module Wrappers {

  datatype Option<+T> = None | Some(value: T)
}
