/** Order-preservation vocabulary shared by the `filter`-based operations. */
module Sequences {

  /** `a` is `b` with some elements dropped and the rest kept in their original order. */
  predicate IsSubsequence<T(==)>(a: seq<T>, b: seq<T>)
    decreases |b|
  {
    a == [] || (|b| > 0 && ((a[0] == b[0] && IsSubsequence(a[1..], b[1..])) || IsSubsequence(a, b[1..])))
  }
}
