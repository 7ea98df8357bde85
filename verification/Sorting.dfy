/** Python's sorted() on strings: code by code, shorter first. */
module Sorting {

  /** `a` does not come after `b`. */
  predicate Before(a: string, b: string) {
    a == [] || (b != [] && (a[0] < b[0] || (a[0] == b[0] && Before(a[1..], b[1..]))))
  }

  lemma {:induction false} BeforeTotal(a: string, b: string)
    ensures Before(a, b) || Before(b, a)
    ensures Before(a, b) && Before(b, a) ==> a == b
  {
    if a != [] && b != [] && a[0] == b[0] {
      BeforeTotal(a[1..], b[1..]);
      if Before(a, b) && Before(b, a) {
        assert a == [a[0]] + a[1..] && b == [b[0]] + b[1..];
      }
    }
  }

  lemma {:induction false} BeforeTransitive(a: string, b: string, c: string)
    requires Before(a, b) && Before(b, c)
    ensures Before(a, c)
  {
    if a != [] && b != [] && c != [] && a[0] == b[0] == c[0] {
      BeforeTransitive(a[1..], b[1..], c[1..]);
    }
  }

  function Insert(x: string, xs: seq<string>): seq<string> {
    if xs == [] then [x]
    else if Before(x, xs[0]) then [x] + xs
    else [xs[0]] + Insert(x, xs[1..])
  }

  function Sorted(xs: seq<string>): seq<string> {
    if xs == [] then [] else Insert(xs[0], Sorted(xs[1..]))
  }

  predicate Ordered(xs: seq<string>) {
    |xs| <= 1 || (Before(xs[0], xs[1]) && Ordered(xs[1..]))
  }

  lemma {:induction false} InsertKeeps(x: string, xs: seq<string>)
    ensures multiset(Insert(x, xs)) == multiset{x} + multiset(xs)
    ensures Ordered(xs) ==> Ordered(Insert(x, xs))
    ensures Insert(x, xs)[0] == x || (xs != [] && Insert(x, xs)[0] == xs[0])
  {
    if xs != [] {
      BeforeTotal(x, xs[0]);
      if !Before(x, xs[0]) {
        InsertKeeps(x, xs[1..]);
        assert xs == [xs[0]] + xs[1..];
      }
    }
  }

  /** Sorting lists the same elements, as often, in order. */
  lemma {:induction false} SortedSorts(xs: seq<string>)
    ensures multiset(Sorted(xs)) == multiset(xs) && Ordered(Sorted(xs))
  {
    if xs != [] {
      SortedSorts(xs[1..]);
      InsertKeeps(xs[0], Sorted(xs[1..]));
      assert xs == [xs[0]] + xs[1..];
    }
  }

  function Set(xs: seq<string>): set<string> {
    set x | x in xs
  }

  lemma SortedSet(xs: seq<string>)
    ensures |Sorted(xs)| == |xs| && Set(Sorted(xs)) == Set(xs)
  {
    SortedSorts(xs);
    assert |multiset(Sorted(xs))| == |multiset(xs)|;
    forall x ensures x in Sorted(xs) <==> x in xs {
      assert x in multiset(Sorted(xs)) <==> x in multiset(xs);
    }
  }

  lemma {:induction false} OrderedHead(xs: seq<string>, k: nat)
    requires Ordered(xs) && k < |xs|
    ensures Before(xs[0], xs[k])
  {
    if k == 0 {
      BeforeTotal(xs[0], xs[0]);
    } else {
      OrderedHead(xs[1..], k - 1);
      BeforeTransitive(xs[0], xs[1], xs[k]);
    }
  }

  lemma OrderedSameHead(xs: seq<string>, ys: seq<string>)
    requires Ordered(xs) && Ordered(ys) && multiset(xs) == multiset(ys) && xs != [] && ys != []
    ensures xs[0] == ys[0]
  {
    assert xs[0] in multiset(ys) && ys[0] in multiset(xs);
    var i :| 0 <= i < |ys| && ys[i] == xs[0];
    var j :| 0 <= j < |xs| && xs[j] == ys[0];
    OrderedHead(ys, i);
    OrderedHead(xs, j);
    BeforeTotal(xs[0], ys[0]);
  }

  /** There is one ordered list of given elements, so the order in which a set is listed before
      it is sorted does not matter. */
  lemma {:induction false} OrderedUnique(xs: seq<string>, ys: seq<string>)
    requires Ordered(xs) && Ordered(ys) && multiset(xs) == multiset(ys)
    ensures xs == ys
  {
    assert |multiset(xs)| == |multiset(ys)|;
    if xs != [] {
      OrderedSameHead(xs, ys);
      assert xs == [xs[0]] + xs[1..] && ys == [ys[0]] + ys[1..];
      assert multiset(xs[1..]) == multiset(xs) - multiset{xs[0]};
      assert multiset(ys[1..]) == multiset(ys) - multiset{ys[0]};
      OrderedUnique(xs[1..], ys[1..]);
    }
  }
}
