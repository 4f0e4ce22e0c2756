/** Optional values, used for the Go nil pointer a geophone's room back-reference holds
    before it joins a room, and for a session that cannot proceed. */
module Wrappers {

  datatype Option<+T> = None | Some(value: T)
}
