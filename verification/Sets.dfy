/** Facts about finite sets. */
module Sets {

  lemma SomeMember<T(0)>(s: set<T>) returns (x: T)
    ensures s == {} || x in s
  {
    if y: T :| y in s {
      x := y;
    } else {
      x := *;
      assert forall y: T :: y !in s;
    }
  }

  lemma {:induction false} SubsetSize<T>(a: set<T>, b: set<T>)
    requires a <= b
    ensures |a| <= |b|
    ensures |a| == |b| ==> a == b
    decreases |a|
  {
    if a != {} {
      var x :| x in a;
      SubsetSize(a - {x}, b - {x});
      assert a == (a - {x}) + {x} && b == (b - {x}) + {x};
    } else if |b| == 0 {
      assert b == {};
    }
  }
}
