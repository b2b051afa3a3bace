/** An optional value: `None` stands for JavaScript's NaN / undefined and for a missing column. */
module Wrappers {
  datatype Option<+T> = None | Some(value: T)
}

/** Facts about lists of names. */
module Sequences {
  /** No name occurs twice in `s`. */
  ghost predicate Distinct(s: seq<string>)
  {
    forall i, j :: 0 <= i < j < |s| ==> s[i] != s[j]
  }

  /** No name of `a` is a name of `b`. */
  ghost predicate Disjoint(a: seq<string>, b: seq<string>)
  {
    forall i, j :: 0 <= i < |a| && 0 <= j < |b| ==> a[i] != b[j]
  }

  /** Two duplicate-free lists with no name in common concatenate to a duplicate-free list. */
  lemma DistinctConcat(a: seq<string>, b: seq<string>)
    requires Distinct(a) && Distinct(b)
    requires Disjoint(a, b)
    ensures Distinct(a + b)
  {
  }
}
