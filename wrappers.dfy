/** The null-or-value shape that the C# code expresses with nullable references. */
module Wrappers {

  datatype Option<+T> = None | Some(value: T)
}
