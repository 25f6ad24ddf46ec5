/** Order-preserving selection from a sequence, shared by the chart and the filter. */
module Sequences {
  /** `xs` is `ys` with some elements left out, the rest in their original order. */
  predicate IsSubsequence<T(==)>(xs: seq<T>, ys: seq<T>)
    decreases |ys|
  {
    if xs == [] then true
    else if ys == [] then false
    else (xs[0] == ys[0] && IsSubsequence(xs[1..], ys[1..])) || IsSubsequence(xs, ys[1..])
  }
}
