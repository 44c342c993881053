/** The optional-value datatype used for dictionary lookups and for session
    attributes that may be absent. */
module Wrappers {

  datatype Option<+T> = None | Some(value: T)

}
