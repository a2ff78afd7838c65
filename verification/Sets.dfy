/** What is asked of the sizes of sets. */
module Sets {

  lemma {:induction false} PartIsSmaller(a: set<nat>, b: set<nat>)
    requires a <= b
    ensures |a| <= |b|
  {
    if a != {} {
      var x :| x in a;
      PartIsSmaller(a - {x}, b - {x});
    }
  }

  lemma UnionAtMost(a: set<nat>, b: set<nat>)
    ensures |a + b| <= |a| + |b|
  {
    assert a + b == a + (b - a);
    PartIsSmaller(b - a, b);
  }
}
