/** The optional value used wherever the converter uses `null` for "absent". */
module Wrappers {

  datatype Option<+T> = None | Some(value: T)
}
