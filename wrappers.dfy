/** The optional value a JavaScript lookup gives back as a record or `null`. */
module Wrappers {

  datatype Option<+T> = None | Some(value: T)

}
