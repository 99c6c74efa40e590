/** Optional values, standing for the nil references and nil errors of the source. */
module Wrappers {

  datatype Option<+T> = None | Some(value: T)
}
