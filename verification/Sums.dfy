/** Sums of natural numbers over finite sets. */
module Sums {

  ghost function Sum<T>(xs: set<T>, f: T -> nat): nat {
    if xs == {} then 0
    else
      var x :| x in xs;
      f(x) + Sum(xs - {x}, f)
  }

  lemma {:induction false} Pick<T>(xs: set<T>, f: T -> nat, x: T)
    requires x in xs
    ensures Sum(xs, f) == f(x) + Sum(xs - {x}, f)
    decreases |xs|
  {
    var y :| y in xs && Sum(xs, f) == f(y) + Sum(xs - {y}, f);
    if y != x {
      Pick(xs - {y}, f, x);
      Pick(xs - {x}, f, y);
      assert xs - {y} - {x} == xs - {x} - {y};
    }
  }

  /** Fewer and smaller summands make no greater a sum. */
  lemma {:induction false} NoGreater<T>(xs: set<T>, f: T -> nat, ys: set<T>, g: T -> nat)
    requires ys <= xs && forall y | y in ys :: g(y) <= f(y)
    ensures Sum(ys, g) <= Sum(xs, f)
    decreases |xs|
  {
    if x :| x in xs {
      Pick(xs, f, x);
      NoGreater(xs - {x}, f, ys - {x}, g);
      if x in ys {
        Pick(ys, g, x);
      } else {
        assert ys - {x} == ys;
      }
    }
  }

  /** And a smaller one if one of them went, or became smaller. */
  lemma Smaller<T>(xs: set<T>, f: T -> nat, ys: set<T>, g: T -> nat, x: T)
    requires ys <= xs && (forall y | y in ys :: g(y) <= f(y))
    requires x in xs && if x in ys then g(x) < f(x) else f(x) > 0
    ensures Sum(ys, g) < Sum(xs, f)
  {
    Pick(xs, f, x);
    NoGreater(xs - {x}, f, ys - {x}, g);
    if x in ys {
      Pick(ys, g, x);
    } else {
      assert ys - {x} == ys;
    }
  }

  lemma {:induction false} AtMost<T>(xs: set<T>, f: T -> nat, k: nat)
    requires forall x | x in xs :: f(x) <= k
    ensures Sum(xs, f) <= |xs| * k
    decreases |xs|
  {
    if x :| x in xs {
      Pick(xs, f, x);
      AtMost(xs - {x}, f, k);
      assert (|xs| - 1) * k + k == |xs| * k;
    }
  }
}
