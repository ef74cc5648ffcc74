/** The one optional-value type the model needs: a C# reference that may be null. */
module Wrappers {
  datatype Option<+T> = None | Some(value: T)
}
