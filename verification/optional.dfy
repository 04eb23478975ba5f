/** The absent-or-present wrapper used for the cache slot and for optional values. */
module Optional {

  datatype Option<+T> = None | Some(value: T)
}
