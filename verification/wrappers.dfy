/** Option: the model's stand-in for C#'s `null` and for a collaborator reply
    that is not a value of the expected type. */
module Wrappers {

  datatype Option<+T> = None | Some(value: T)
}
