/** The optional value used wherever the pages read something that may be absent:
    a canvas element that is not mounted, a context `getContext` did not return,
    a touch list with no first contact, a storage key with no value. */
module Wrappers {

  datatype Option<+T> = None | Some(value: T)
}
