/** Sizes of finite sets and of sequences without repetition. */
module Collections {

  lemma SubsetSize<T>(a: set<T>, b: set<T>)
    requires a <= b
    ensures |a| <= |b|
  {
    assert b == a + (b - a);
  }

  ghost function Elements<T>(q: seq<T>): set<T>
  {
    set x | x in q
  }

  lemma {:induction false} DistinctSize<T>(q: seq<T>)
    requires forall i, j :: 0 <= i < j < |q| ==> q[i] != q[j]
    ensures |Elements(q)| == |q|
  {
    if q != [] {
      var p := q[..|q| - 1];
      DistinctSize(p);
      assert q == p + [q[|q| - 1]];
      assert Elements(q) == Elements(p) + {q[|q| - 1]};
    }
  }

  lemma SameSize<T>(a: set<T>, b: set<T>)
    requires a <= b && |a| == |b|
    ensures a == b
  {
    assert b == a + (b - a);
  }
}
