/** A value that may be absent, as TypeScript's `undefined` marks it. */
module Wrappers {

  datatype Option<+T> = None | Some(value: T)
}
