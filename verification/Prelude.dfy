/** Small generic vocabulary shared by the other modules. */
module Prelude {

  datatype Option<+T> = None | Some(value: T) {
    function GetOr(default: T): T {
      match this
      case Some(v) => v
      case None => default
    }
  }

  function Max(x: int, y: int): int {
    if x < y then y else x
  }

  function Min(x: int, y: int): int {
    if x < y then x else y
  }

  /** The value stored under a key, or a default: a dictionary's get. */
  function Get<K, V>(m: map<K, V>, k: K, default: V): V {
    if k in m then m[k] else default
  }

  /** `xs` lists every element of `s` exactly once, in some order. */
  ghost predicate Lists<T(!new)>(xs: seq<T>, s: set<T>) {
    && (forall x :: x in s <==> x in xs)
    && forall i, j :: 0 <= i < j < |xs| ==> xs[i] != xs[j]
  }

  lemma FirstIn<T>(xs: seq<T>)
    requires xs != []
    ensures xs[0] in xs
  {}

  lemma NoMembers<T(!new)>(xs: seq<T>)
    requires forall x :: x !in xs
    ensures xs == []
  {
    if xs != [] {
      FirstIn(xs);
      assert false;
    }
  }

  // ---- Division ------------------------------------------------------------------------------

  lemma ModUnique(x: nat, m: nat, q: int, r: int)
    requires m >= 1 && x == q * m + r && 0 <= r < m
    ensures x % m == r && x / m == q
  {
    var q', r' := x / m, x % m;
    assert x == m * q' + r';
    var d := q' - q;
    assert d * m == r - r' by { assert d * m == q' * m - q * m; }
    if d >= 1 { TimesAtLeast(d, m); assert false; }
    if d <= -1 { TimesAtLeast(-d, m); TimesNegative(d, m); assert false; }
  }

  lemma TimesAtLeast(d: int, m: int)
    requires d >= 1 && m >= 1
    ensures d * m >= m
  {
    assert d * m == (d - 1) * m + m;
  }

  lemma TimesNegative(d: int, m: int)
    ensures (-d) * m == -(d * m)
  {}
}
