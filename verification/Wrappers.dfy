/** The optional value used wherever the program has null, undefined or a missing row, and map removal. */
module Wrappers {
  datatype Option<+T> = None | Some(value: T)

  /** Map.delete and its like. */
  function Without<T>(m: map<nat, T>, key: nat): map<nat, T> {
    map k | k in m && k != key :: m[k]
  }
}
