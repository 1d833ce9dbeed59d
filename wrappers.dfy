/** Optional values, used for lookups that may find nothing, and duplicate-free sequences. */
module Wrappers {

  datatype Option<+T> = None | Some(value: T)

  /** True iff no element of `s` occurs twice. */
  predicate NoDups<T(==)>(s: seq<T>)
  {
    forall i, j :: 0 <= i < j < |s| ==> s[i] != s[j]
  }

  /** Two duplicate-free sequences with no element in common concatenate to a duplicate-free one. */
  lemma NoDupsConcat<T>(a: seq<T>, b: seq<T>)
    requires NoDups(a) && NoDups(b)
    requires forall x :: x in a ==> x !in b
    ensures NoDups(a + b)
  {
    forall i, j | 0 <= i < j < |a + b|
      ensures (a + b)[i] != (a + b)[j]
    {
      if i < |a| && |a| <= j {
        assert (a + b)[i] == a[i] && (a + b)[j] == b[j - |a|];
        assert a[i] in a;
      }
    }
  }
}
