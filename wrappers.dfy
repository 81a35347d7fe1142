/** The optional value the extractors return: a regular expression either matches or not. */
module Wrappers {

  datatype Option<+T> = None | Some(value: T)
}
