/** An optional value: a UI input that may or may not have happened in a frame
    (a combo-box pick, a clicked list entry), or a search that may find nothing. */
module Wrappers {
  datatype Option<+T> = None | Some(value: T)
}
