/** Optional values, used where the controller's collaborators may yield nothing. */
module Wrappers {

  datatype Option<+T> = None | Some(value: T)
}
