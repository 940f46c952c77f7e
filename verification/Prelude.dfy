/** What every module shares. */
module Prelude {
  /** A value that may be missing: a `None` read, an unset column, a raised error. */
  datatype Option<+T> = None | Some(value: T)

  predicate NoRepeats<T(==)>(xs: seq<T>) { forall i, j :: 0 <= i < j < |xs| ==> xs[i] != xs[j] }
}
