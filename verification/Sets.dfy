/** Sizes of finite sets. */
module Sets {
  lemma SubsetSize<T>(a: set<T>, b: set<T>)
    requires a <= b
    ensures |a| <= |b|
  {
    assert b == a + (b - a);
  }

  lemma AddOne<T>(x: T, s: set<T>)
    ensures |{x} + s| <= 1 + |s|
  {
    if x in s {
      assert {x} + s == s;
    }
  }
}
