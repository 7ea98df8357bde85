/** The trie behind RangeTable as a value. */
module RangeTrie {
  // The nodes by the path that leads to them, each with its children.  A path is the sequence of the
  // four bytes of an address, the highest first.

  import opened Prelude
  import opened IpBlocks

  datatype Kid<V> = Below | Leaf(value: V)

  /** The children of every node. */
  type Shape<V> = map<seq<int>, map<int, Kid<V>>>

  /** _follow_path: from node `q` on, the value reached, or None. */
  ghost function Follow<V>(t: Shape<V>, q: seq<int>, path: seq<int>): Option<V>
    decreases |path|
  {
    if path == [] || q !in t || path[0] !in t[q] then None
    else
      match t[q][path[0]]
      case Leaf(v) => Some(v)
      case Below => Follow(t, q + [path[0]], path[1..])
  }

  /** The nodes on the way to `q` lead to each other. */
  ghost predicate Leads<V>(t: Shape<V>, q: seq<int>) {
    && (forall i | 0 <= i <= |q| :: q[..i] in t)
    && (forall i | 0 <= i < |q| :: q[i] in t[q[..i]] && t[q[..i]][q[i]].Below?)
  }

  predicate IsByte(x: int) { 0 <= x < 256 }

  /** A node with the same value at all 256 points. */
  function Filled<V>(v: V): map<int, Kid<V>> {
    map x: int | 0 <= x < 256 && IsByte(x) :: Leaf(v)
  }

  /** A child that is not a node becomes one, with its value at all 256 points if it had one. */
  ghost function Grown<V>(t: Shape<V>, q: seq<int>, p: int): Shape<V>
    requires q in t
  {
    var kids := t[q];
    t[q := kids[p := Below]][q + [p] := if p in kids && kids[p].Leaf? then Filled(kids[p].value) else map[]]
  }

  lemma BelowStep(q: seq<int>, p: int, r: seq<int>, x: int)
    requires q + [p] <= r + [x]
    ensures q + [p] <= r || (r == q && x == p)
  {
    var a, b := q + [p], r + [x];
    assert a == b[..|a|];
    if |q| == |r| {
      assert a[..|q|] == q && b[..|q|] == r && a[|q|] == p && b[|q|] == x;
    } else {
      assert b[..|a|] == r[..|a|];
    }
  }

  lemma ShorterPrefix(r: seq<int>, x: int, q: seq<int>)
    requires r + [x] <= q
    ensures r <= q
  {
    assert r == (r + [x])[..|r|] == q[..|r|];
  }

  /** Expanding a leaf, or adding an empty node, changes no answer. */
  lemma {:induction false} GrownSame<V>(t: Shape<V>, q: seq<int>, p: int, r: seq<int>, path: seq<int>)
    requires q in t && (p in t[q] ==> t[q][p].Leaf?)
    requires |r| + |path| > |q| + 1 && !(q + [p] <= r)
    requires forall i | 0 <= i < |path| :: 0 <= path[i] < 256
    ensures Follow(Grown(t, q, p), r, path) == Follow(t, r, path)
    decreases |path|
  {
    if path != [] && r in t && path[0] in Grown(t, q, p)[r] {
      if r == q && path[0] == p {
        assert path[1..] != [];
        assert IsByte(path[1..][0]);
      } else if path[0] in t[r] && t[r][path[0]].Below? {
        assert !(q + [p] <= r + [path[0]]) by {
          if q + [p] <= r + [path[0]] {
            BelowStep(q, p, r, path[0]);
            assert false;
          }
        }
        GrownSame(t, q, p, r + [path[0]], path[1..]);
      }
    }
  }

  /** Writing a value at the end of a path: exactly the addresses below it answer the value. */
  lemma {:induction false} WrittenAnswers<V>(t: Shape<V>, q: seq<int>, p: int, v: V, i: nat, path: seq<int>)
    requires Leads(t, q) && q in t && i <= |q| && |path| > |q| && path[..i] == q[..i]
    ensures var t' := t[q := t[q][p := Leaf(v)]];
            Follow(t', q[..i], path[i..]) == if q + [p] <= path then Some(v) else Follow(t, q[..i], path[i..])
    decreases |q| - i
  {
    var t' := t[q := t[q][p := Leaf(v)]];
    var r, rest := q[..i], path[i..];
    assert rest[0] == path[i];
    if i == |q| {
      assert r == q;
      if q + [p] <= path { assert path[i] == (q + [p])[i]; }
      if path[i] == p { assert path[..i + 1] == path[..i] + [path[i]]; }
      if path[i] != p && path[i] in t[q] && t[q][path[i]].Below? {
        WrittenElsewhere(t, q, p, v, q + [path[i]], rest[1..]);
      }
    } else {
      assert r != q && |r| < |q|;
      if q + [p] <= path { assert path[i] == (q + [p])[i] == q[i]; }
      if path[i] == q[i] {
        assert q[..i + 1] == r + [q[i]];
        assert path[..i + 1] == path[..i] + [path[i]];
        assert rest[1..] == path[i + 1..];
        WrittenAnswers(t, q, p, v, i + 1, path);
      } else if path[i] in t[r] && t[r][path[i]].Below? {
        assert (r + [path[i]])[i] != q[i];
        WrittenElsewhere(t, q, p, v, r + [path[i]], rest[1..]);
      }
    }
  }

  /** Nodes that are not on the way to `q` do not see the write. */
  lemma {:induction false} WrittenElsewhere<V>(t: Shape<V>, q: seq<int>, p: int, v: V, r: seq<int>, path: seq<int>)
    requires q in t && !(r <= q)
    ensures Follow(t[q := t[q][p := Leaf(v)]], r, path) == Follow(t, r, path)
    decreases |path|
  {
    if path != [] && r in t && path[0] in t[r] && t[r][path[0]].Below? {
      assert !(r + [path[0]] <= q) by {
        if r + [path[0]] <= q {
          ShorterPrefix(r, path[0], q);
          assert false;
        }
      }
      WrittenElsewhere(t, q, p, v, r + [path[0]], path[1..]);
    }
  }

  // ---- Addresses and their bytes -------------------------------------------------------------

  /** _to_path */
  function Path(a: nat): (p: seq<int>)
    requires a < SPACE
    ensures |p| == 4 && forall i | 0 <= i < 4 :: 0 <= p[i] < 256
  {
    [a / 0x100_0000, a / 0x1_0000 % 256, a / 0x100 % 256, a % 256]
  }

  /** How many addresses share their first `n` + 1 bytes with one address. */
  function Unit(n: nat): nat
    requires n < 4
  {
    match n
    case 0 => 0x100_0000
    case 1 => 0x1_0000
    case 2 => 0x100
    case 3 => 1
  }

  /** The number of the unit an address lies in. */
  function Above(a: nat, n: nat): nat
    requires n < 4
  {
    a / Unit(n)
  }

  /** Two addresses share their first `n` bytes exactly if they lie in the same unit above. */
  lemma PathPrefix(a: nat, b: nat, n: nat)
    requires a < SPACE && b < SPACE && n < 4
    ensures Path(a)[..n] == Path(b)[..n] <==> Above(a, n) / 256 == Above(b, n) / 256
    ensures Path(a)[n] == Above(a, n) % 256
  {
    Take0(a, b);
    Take1(a, b);
    Take2(a, b);
    Take3(a, b);
    hide Path;
  }

  lemma TakePath(a: nat)
    requires a < SPACE
    ensures var p := Path(a); p[..1] == [p[0]] && p[..2] == [p[0], p[1]] && p[..3] == [p[0], p[1], p[2]]
  {}

  lemma Take0(a: nat, b: nat)
    requires a < SPACE && b < SPACE
    ensures Path(a)[..0] == Path(b)[..0] && a / 0x100_0000 / 256 == b / 0x100_0000 / 256
    ensures Path(a)[0] == a / 0x100_0000 % 256
  {}

  lemma Take1(a: nat, b: nat)
    requires a < SPACE && b < SPACE
    ensures Path(a)[..1] == Path(b)[..1] <==> a / 0x1_0000 / 256 == b / 0x1_0000 / 256
    ensures Path(a)[1] == a / 0x1_0000 % 256
  {
    Bytes(a);
    Bytes(b);
    TakePath(a);
    TakePath(b);
  }

  lemma Take2(a: nat, b: nat)
    requires a < SPACE && b < SPACE
    ensures Path(a)[..2] == Path(b)[..2] <==> a / 0x100 / 256 == b / 0x100 / 256
    ensures Path(a)[2] == a / 0x100 % 256
  {
    Bytes(a);
    Bytes(b);
    TakePath(a);
    TakePath(b);
  }

  lemma Take3(a: nat, b: nat)
    requires a < SPACE && b < SPACE
    ensures Path(a)[..3] == Path(b)[..3] <==> a / 1 / 256 == b / 1 / 256
    ensures Path(a)[3] == a / 1 % 256
  {
    Bytes(a);
    Bytes(b);
    TakePath(a);
    TakePath(b);
  }

  /** An address is its bytes, in positional notation. */
  lemma Bytes(a: nat)
    requires a < SPACE
    ensures var p := Path(a); a == p[0] * 0x100_0000 + p[1] * 0x1_0000 + p[2] * 0x100 + p[3]
    ensures a / 0x100 == a / 0x1_0000 * 256 + Path(a)[2]
    ensures a / 0x1_0000 == a / 0x100_0000 * 256 + Path(a)[1]
  {
    assert a / 0x100 / 0x100 == a / 0x1_0000;
    assert a / 0x1_0000 / 0x100 == a / 0x100_0000;
    assert a / 0x100_0000 < 256;
  }
}
