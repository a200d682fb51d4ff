/** Optional values, used for the session's single error slot and for the
    "type" field of an inbound frame, which may be absent. */
module Wrappers {

  datatype Option<+T> = None | Some(value: T)

}
