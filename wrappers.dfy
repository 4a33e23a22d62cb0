/** A value that may be absent: an undefined form field, or the NaN that
    `Number.parseInt` returns when it finds no integer. */
module Wrappers {

  datatype Option<+T> = None | Some(value: T)

}
