/** The absent-or-present value used for the component's nullable slots
    (`Product | null`) and for response fields that may be missing. */
module Wrappers {

  datatype Option<+T> = None | Some(value: T)
}
