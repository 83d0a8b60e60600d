/** The optional value used for every field of the session record that Python keeps as `None`
    when unset, and for payload keys that may be absent. */
module Wrappers {

  datatype Option<+T> = None | Some(value: T)
}
