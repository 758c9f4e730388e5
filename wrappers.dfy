/** Optional values: a missing DOM element, an unset ref, a hover outside every zone. */
module Wrappers {

  datatype Option<+T> = None | Some(value: T)
}
