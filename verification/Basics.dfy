/** Small definitions shared by the other modules. */
module Basics {

  datatype Option<+T> = None | Some(value: T)

  /** A positive real: the value of 10^(d/400) in a rating update. */
  type PosReal = q: real | q > 0.0 witness 1.0

  ghost predicate NoRepeat<T>(s: seq<T>) {
    forall j, k :: 0 <= j < k < |s| ==> s[j] != s[k]
  }
}
