/** The optional value the dashboard passes around where the source returns `None`. */
module Wrappers {

  datatype Option<+T> = None | Some(value: T)
}
