/** Facts about finite sets and maps. */
module Sets {
  lemma SubsetSize<T>(a: set<T>, b: set<T>)
    requires a <= b
    ensures |a| <= |b|
  {
    assert b == a + (b - a);
  }

  lemma SomeKey<T, U>(m: map<T, U>) returns (k: T)
    requires m != map[]
    ensures k in m
  {
    assert |m| != 0;
    k :| k in m;
  }
}
