/** Sums over finite sets of ids, independent of the order in which the set is walked. */
module Sums {
  import opened Domain

  ghost function SumOver(ids: set<Id>, f: Id -> int): int {
    if ids == {} then 0
    else
      var x :| x in ids;
      f(x) + SumOver(ids - {x}, f)
  }

  lemma {:induction false} SumSplit(ids: set<Id>, f: Id -> int, x: Id)
    requires x in ids
    ensures SumOver(ids, f) == f(x) + SumOver(ids - {x}, f)
    decreases |ids|
  {
    var y :| y in ids && SumOver(ids, f) == f(y) + SumOver(ids - {y}, f);
    if y != x {
      SumSplit(ids - {y}, f, x);
      SumSplit(ids - {x}, f, y);
      assert ids - {y} - {x} == ids - {x} - {y};
    }
  }

  lemma {:induction false} SumCongruence(ids: set<Id>, f: Id -> int, g: Id -> int)
    requires forall x :: x in ids ==> f(x) == g(x)
    ensures SumOver(ids, f) == SumOver(ids, g)
    decreases |ids|
  {
    if ids != {} {
      var x :| x in ids;
      SumSplit(ids, f, x);
      SumSplit(ids, g, x);
      SumCongruence(ids - {x}, f, g);
    }
  }

  /** If two summands differ at one id only, so do the sums. */
  lemma {:induction false} SumChange(ids: set<Id>, f: Id -> int, g: Id -> int, x: Id)
    requires x in ids && forall y :: y in ids && y != x ==> f(y) == g(y)
    ensures SumOver(ids, g) == SumOver(ids, f) + g(x) - f(x)
  {
    SumSplit(ids, f, x);
    SumSplit(ids, g, x);
    SumCongruence(ids - {x}, f, g);
  }
}
