/** The usual optional-value datatype, used for nullable importer arrays,
    a failed import and the root's missing parent. */
module Wrappers {

  datatype Option<+T> = None | Some(value: T)
}
