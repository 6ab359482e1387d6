/** The optional value the router hands the page: present, or missing. */
module Wrappers {

  datatype Option<+T> = None | Some(value: T)
}
