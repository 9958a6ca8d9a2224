/** Optional values, used for nullable columns and for answers that may be absent, and the
    sizes of sets. */
module Wrappers {
  datatype Option<+T> = None | Some(value: T)

  lemma SubsetSplits<T>(a: set<T>, b: set<T>)
    requires a <= b
    ensures |a| + |b - a| == |b|
  {
    assert b == a + (b - a);
  }

  lemma StrictSubset<T>(a: set<T>, b: set<T>, x: T)
    requires a <= b && x in b && x !in a
    ensures |a| < |b|
  {
    SubsetSplits(a, b);
    assert x in b - a;
  }
}
