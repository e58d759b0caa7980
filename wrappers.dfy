/** Optional values, used for the persisted timer slot and for results that may be absent. */
module Wrappers {

  datatype Option<+T> = None | Some(value: T)

}
