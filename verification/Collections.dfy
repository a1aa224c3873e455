/** Facts about finite collections that several components use. */
module Collections {

  lemma SubsetSize<T>(a: set<T>, b: set<T>)
    requires a <= b
    ensures |a| <= |b|
    ensures a != b ==> |a| < |b|
  {
    assert b == a + (b - a);
  }

  lemma EmptyOrNot<T>(items: seq<T>)
    ensures items == [] || exists x :: x in items
  {
    if items != [] { assert items[0] in items; }
  }
}
