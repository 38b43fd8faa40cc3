/** Members and sizes of sets. */
module Sets {
  ghost function AMember(s: set<int>): (x: int)
    requires s != {}
    ensures x in s
  {
    assert (forall x :: x !in s) ==> s == {};
    var x :| x in s;
    x
  }

  lemma {:induction false} SubsetSize(a: set<int>, b: set<int>)
    requires a <= b
    ensures |a| <= |b|
  {
    if a != {} {
      var x := AMember(a);
      SubsetSize(a - {x}, b - {x});
    }
  }

  lemma StrictSubsetSize(a: set<int>, b: set<int>)
    requires a < b
    ensures |a| < |b|
  {
    assert a + (b - a) == b;
    SubsetSize(a, b - {AMember(b - a)});
  }
}
