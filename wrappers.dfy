/** The optional value used for the optional fields of a validation descriptor
    and for the `[string, string, number] | void` result of gathering the form input. */
module Wrappers {

  datatype Option<+T> = None | Some(value: T)
}
