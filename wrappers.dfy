/** The optional value the handlers return: `None` is what the HTTP layer turns into a 404. */
module Wrappers {

  datatype Option<+T> = None | Some(value: T)
}
