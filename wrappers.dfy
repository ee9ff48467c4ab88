/** The optional value used for one-shot slots, persisted markers and received messages. */
module Wrappers {
  datatype Option<+T> = None | Some(value: T)
}
