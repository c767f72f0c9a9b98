/** Small sequence vocabulary shared by the component models. */
module Prelude {

  datatype Option<+T> = None | Some(value: T)

  /** Python's `len(values) == len(set(values))`. */
  predicate Distinct<T(==)>(s: seq<T>) {
    forall i, j :: 0 <= i < j < |s| ==> s[i] != s[j]
  }

  function Elements<T>(s: seq<T>): set<T> {
    set x | x in s
  }
}
