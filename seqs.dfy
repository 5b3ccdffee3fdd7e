// Sequence relations used by several modules.

module Seqs {
  /** `items` is `whole` with some elements left out, the rest in their order. */
  predicate IsSubsequence<T(==)>(items: seq<T>, whole: seq<T>) {
    if items == [] then true
    else if whole == [] then false
    else if items[0] == whole[0] then IsSubsequence(items[1..], whole[1..])
    else IsSubsequence(items, whole[1..])
  }
}
