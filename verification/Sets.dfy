/** Cardinality of finite sets */
module Sets {
  lemma {:induction false} SubsetSize<T>(a: set<T>, b: set<T>)
    requires a <= b
    ensures |a| <= |b|
  {
    if x :| x in a { SubsetSize(a - {x}, b - {x}); }
  }

  lemma {:induction false} Interval(a: set<nat>, low: nat, high: nat)
    requires low <= high && forall q: nat :: q in a <==> low <= q < high
    ensures |a| == high - low
    decreases high
  {
    if low == high {
      assert a == {};
    } else {
      Interval(a - {high - 1}, low, high - 1);
    }
  }
}
