/** Values that may be missing. */
module Wrappers {
  datatype Option<T> = None | Some(value: T)

  /** A slot of a block: raw memory, or a constructed element. */
  datatype Cell<T> = Junk | Full(x: T)
}
