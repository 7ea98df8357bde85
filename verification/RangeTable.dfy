/** RangeTable of common/iprange.py: a 256-way trie of nested dictionaries, changed in place. */
module RangeTableObject {
  import opened Prelude
  import opened IpBlocks
  import opened RangeTrie

  datatype Slot<V> = Sub(node: Node<V>) | Val(value: V)

  /** One dictionary of the trie. */
  class Node<V> {
    var kids: map<int, Slot<V>>

    constructor ()
      ensures kids == map[]
    {
      kids := map[];
    }
  }

  ghost function KidOf<V>(s: Slot<V>): Kid<V> {
    if s.Sub? then Below else Leaf(s.value)
  }

  ghost function Kids<V>(n: Node<V>): map<int, Kid<V>>
    reads n
  {
    map p | p in n.kids :: KidOf(n.kids[p])
  }

  ghost predicate IsPath(path: seq<int>) {
    |path| == 4 && forall i | 0 <= i < 4 :: IsByte(path[i])
  }

  lemma SameShape<V>(t: Shape<V>, g: Shape<V>)
    requires (forall r :: r in t <==> r in g) && forall r | r in t :: t[r] == g[r]
    ensures t == g
  {}

  lemma SamePlace(q: seq<int>, p: int, r: seq<int>, x: int)
    requires q + [p] == r + [x]
    ensures q == r && p == x
  {
    assert (q + [p])[..|q|] == q && (r + [x])[..|r|] == r;
    assert (q + [p])[|q|] == p && (r + [x])[|r|] == x;
  }

  /** int(log(n, 256)) for exact logarithms. */
  function Log256(n: nat): nat {
    if n < 256 then 0 else 1 + Log256(n / 256)
  }

  class RangeTable<V> {
    var trie: Node<V>
    ghost var at: map<seq<int>, Node<V>>    // the nodes, by the path that leads to them

    ghost predicate Valid()
      reads this, at.Values
    {
      && [] in at && at[[]] == trie
      && (forall q | q in at :: |q| <= 3)
      && (forall q, r | q in at && r in at && at[q] == at[r] :: q == r)
      && (forall q | q in at :: KidsOk(q))
    }

    /** The children of the node at `q` stand at bytes, and nodes among them where they should be. */
    ghost predicate KidsOk(q: seq<int>)
      requires q in at
      reads this, at.Values
    {
      forall p | p in at[q].kids ::
        IsByte(p) && (at[q].kids[p].Sub? ==> q + [p] in at && at[q + [p]] == at[q].kids[p].node)
    }

    ghost function Tree(): Shape<V>
      reads this, at.Values
    {
      map q | q in at :: Kids(at[q])
    }

    /** What a lookup of address `a` answers. */
    ghost function Answer(a: nat): Option<V>
      requires a < SPACE
      reads this, at.Values
    {
      Follow(Tree(), [], Path(a))
    }

    /** Nodes are only added, and only new ones. */
    twostate predicate Grew()
      reads this
    {
      forall n | n in at.Values :: n in old(at.Values) || fresh(n)
    }

    constructor ()
      ensures Valid() && fresh(at.Values)
      ensures forall a: nat | a < SPACE :: Answer(a) == None
    {
      trie := new Node();
      new;
      at := map[[] := trie];
      assert Tree()[[]] == map[];
    }

    /** The part of _add_path that enters a child, making it a node if it is not one yet. */
    method Enter(ghost q: seq<int>, cur: Node<V>, p: int) returns (child: Node<V>)
      requires Valid() && q in at && at[q] == cur && |q| <= 2 && IsByte(p)
      modifies this`at, cur
      ensures Valid() && Grew() && trie == old(trie)
      ensures q + [p] in at && at[q + [p]] == child
      ensures Tree() == if p in old(Kids(cur)) && old(Kids(cur))[p].Below? then old(Tree()) else Grown(old(Tree()), q, p)
      ensures p in cur.kids && cur.kids[p] == Sub(child)
    {
      ghost var t := Tree();
      assert t[q] == Kids(cur);
      if p in cur.kids && cur.kids[p].Sub? {
        child := cur.kids[p].node;
        return;
      }
      hide KidsOk;
      child := new Node();
      if p in cur.kids {
        var prev := cur.kids[p].value;
        child.kids := map x: int | 0 <= x < 256 && IsByte(x) :: Val(prev);
        assert Kids(child) == Filled(prev);
      } else {
        assert Kids(child) == map[];
      }
      assert Tree() == t && Kids(cur) == t[q];
      assert Grown(t, q, p) == t[q := t[q][p := Below]][q + [p] := Kids(child)];
      hide Tree, Kids, Grown;
      Attach(q, cur, p, child);
    }

    /** Hang a new node without nodes below it under point `p` of node `cur`. */
    method Attach(ghost q: seq<int>, cur: Node<V>, p: int, child: Node<V>)
      requires Valid() && q in at && at[q] == cur && |q| <= 2 && IsByte(p)
      requires child !in at.Values && forall x | x in child.kids :: IsByte(x) && child.kids[x].Val?
      modifies this`at, cur
      ensures Valid() && trie == old(trie) && q in at && at == old(at)[q + [p] := child]
      ensures Tree() == old(Tree())[q := old(Kids(cur))[p := Below]][q + [p] := old(Kids(child))]
      ensures p in cur.kids && cur.kids[p] == Sub(child)
    {
      cur.kids := cur.kids[p := Sub(child)];
      at := at[q + [p] := child];
      assert q + [p] != q;
      forall r | r in at ensures KidsOk(r) {
        hide Tree, Kids;
        forall x | x in at[r].kids
          ensures IsByte(x) && (at[r].kids[x].Sub? ==> r + [x] in at && at[r + [x]] == at[r].kids[x].node)
        {
          if r + [x] == q + [p] { SamePlace(r, x, q, p); }
          if r != q + [p] { assert r in old(at) && old(KidsOk(r)); }
        }
      }
      ghost var g := old(Tree())[q := old(Kids(cur))[p := Below]][q + [p] := old(Kids(child))];
      forall r | r in at ensures r in g && Tree()[r] == g[r] {
        hide KidsOk, IsByte;
        if r == q {
          assert Kids(cur) == old(Kids(cur))[p := Below];
        } else if r != q + [p] {
          assert r in old(at) && at[r] == old(at)[r] && at[r] != cur;
          assert Kids(at[r]) == old(Kids(at[r]));
        }
      }
      SameShape(Tree(), g);
      hide Tree, Kids, KidsOk, IsByte;
    }

    /** The root leads to itself. */
    lemma LeadsNowhere()
      requires Valid()
      ensures Leads(Tree(), [])
    {}

    /** _add_path: all addresses whose bytes begin with `path` get the value. */
    method AddPath(path: seq<int>, value: V)
      requires Valid() && 1 <= |path| <= 4 && forall i | 0 <= i < |path| :: IsByte(path[i])
      modifies this`at, at.Values
      ensures Valid() && Grew() && trie == old(trie)
      ensures forall full | IsPath(full) ::
                Follow(Tree(), [], full) == if path <= full then Some(value) else Follow(old(Tree()), [], full)
    {
      LeadsNowhere();
      hide KidsOk, Tree, Grown;
      var cur := trie;
      var i := 0;
      assert path[..0] == [];
      while i < |path| - 1
        invariant 0 <= i <= |path| - 1 && Valid() && Grew() && trie == old(trie)
        invariant path[..i] in at && at[path[..i]] == cur && Leads(Tree(), path[..i])
        invariant forall full | IsPath(full) :: Follow(Tree(), [], full) == Follow(old(Tree()), [], full)
      {
        ghost var t, q, p := Tree(), path[..i], path[i];
        cur := Enter(q, cur, path[i]);
        assert path[..i + 1] == q + [p];
        Deeper(t, Tree(), q, p);
        i := i + 1;
      }
      ghost var t, q, p := Tree(), path[..i], path[i];
      assert path == q + [p];
      Write(q, cur, path[i], value);
      Overwritten(t, q, p, value);
    }

    /** Writing a value below `q` decides the answers of the paths that go there. */
    static lemma Overwritten(t: Shape<V>, q: seq<int>, p: int, value: V)
      requires q in t && Leads(t, q) && |q| <= 3
      ensures forall full | IsPath(full) ::
                Follow(t[q := t[q][p := Leaf(value)]], [], full) == if q + [p] <= full then Some(value) else Follow(t, [], full)
    {
      forall full | IsPath(full)
        ensures Follow(t[q := t[q][p := Leaf(value)]], [], full) == if q + [p] <= full then Some(value) else Follow(t, [], full)
      {
        assert q[..0] == [] && full[..0] == [] && full[0..] == full;
        WrittenAnswers(t, q, p, value, 0, full);
      }
    }

    /** The assignment at the end of _add_path. */
    method Write(ghost q: seq<int>, cur: Node<V>, p: int, value: V)
      requires Valid() && q in at && at[q] == cur && IsByte(p)
      modifies cur
      ensures Valid() && Tree() == old(Tree())[q := old(Tree())[q][p := Leaf(value)]]
    {
      ghost var t := Tree();
      cur.kids := cur.kids[p := Val(value)];
      assert Kids(cur) == t[q][p := Leaf(value)];
    }

    /** Entering a child keeps every answer, and leads one byte further. */
    static lemma Deeper(t: Shape<V>, t': Shape<V>, q: seq<int>, p: int)
      requires q in t && Leads(t, q) && |q| <= 2
      requires t' == if p in t[q] && t[q][p].Below? then t else Grown(t, q, p)
      requires q + [p] in t'
      ensures Leads(t', q + [p])
      ensures forall full | IsPath(full) :: Follow(t', [], full) == Follow(t, [], full)
    {
      var q' := q + [p];
      assert q'[..|q|] == q && q'[..|q| + 1] == q';
      forall i | 0 <= i <= |q'| ensures q'[..i] in t' { if i <= |q| { assert q'[..i] == q[..i]; } }
      forall i | 0 <= i < |q'| ensures q'[i] in t'[q'[..i]] && t'[q'[..i]][q'[i]].Below? {
        if i < |q| { assert q'[..i] == q[..i] && q'[i] == q[i]; assert |q'[..i]| != |q|; }
      }
      if !(p in t[q] && t[q][p].Below?) {
        forall full | IsPath(full) ensures Follow(t', [], full) == Follow(t, [], full) {
          forall i | 0 <= i < |full| ensures 0 <= full[i] < 256 { assert IsByte(full[i]); }
          GrownSame(t, q, p, [], full);
        }
      }
    }

    /** __getitem__: follow the bytes of the address; four are always enough. */
    method GetItem(a: nat) returns (r: Option<V>)
      requires Valid() && a < SPACE
      ensures r == Answer(a)
    {
      var path := Path(a);
      var cur := trie;
      var i := 0;
      assert path[..0] == [] && path[0..] == path;
      while true
        invariant 0 <= i <= 3 && path[..i] in at && at[path[..i]] == cur
        invariant Follow(Tree(), path[..i], path[i..]) == Answer(a)
        decreases 3 - i
      {
        assert path[i..][0] == path[i] && path[i..][1..] == path[i + 1..] && path[..i + 1] == path[..i] + [path[i]];
        if path[i] !in cur.kids {
          return None;
        }
        match cur.kids[path[i]] {
          case Val(v) => return Some(v);
          case Sub(n) =>
            cur := n;
            i := i + 1;
        }
      }
    }

    // ---- Ranges ------------------------------------------------------------------------------

    /** _add_cidr, for a block that _next has produced. */
    method AddCidr(lower: nat, upper: nat, value: V, ghost k: nat)
      requires Valid() && lower <= upper < SPACE
      requires upper - lower + 1 == Pow2(k) && lower % Pow2(k) == 0
      modifies this`at, at.Values
      ensures Valid() && Grew() && trie == old(trie)
      ensures Assigned(old(Tree()), Tree(), lower, if upper - lower + 1 == SPACE then 255 else upper, value)
    {
      hide Path, Pow2, Log256, KidsOk, Tree;
      var size := upper - lower;
      OrderOfSize(k);
      LogOfPow2(k);
      // a negative index counts from the end: for the whole space this is the last byte
      var points := 3 - Log256(size + 1);
      var index := if points < 0 then 4 + points else points;
      var lo, hi := Path(lower), Path(upper);
      var prefix := if points < 0 then lo[..4 + points] else lo[..points];
      var x := lo[index];
      ghost var t := Tree();
      SliceStart(lo, index);
      BlockSlice(lower, k, lower);
      SpaceEnd(lower, upper);
      while x <= hi[index]
        invariant lo[index] <= x <= hi[index] + 1 && Valid() && Grew() && trie == old(trie)
        invariant forall full | IsPath(full) ::
                    Follow(Tree(), [], full) == if InSlice(lo, index, x, full) then Some(value) else Follow(t, [], full)
      {
        ghost var t0, path := Tree(), prefix + [x];
        AddPath(prefix + [x], value);
        forall full | IsPath(full)
          ensures Follow(Tree(), [], full) == if InSlice(lo, index, x + 1, full) then Some(value) else Follow(t, [], full)
        {
          SliceStep(lo, index, x, full);
        }
        x := x + 1;
      }
      forall a: nat | a < SPACE
        ensures Answer(a) == if lower <= a <= (if size + 1 == SPACE then 255 else upper) then Some(value) else Follow(t, [], Path(a))
      {
        BlockSlice(lower, k, a);
        PathIsPath(a);
        assert InSlice(lo, index, x, Path(a)) <==> lower <= a <= if size + 1 == SPACE then 255 else upper;
      }
    }

    /** _add_range: assign the blocks of the range, largest first at each address. */
    method AddBlocks(lower: nat, upper: nat, value: V) returns (ghost bs: seq<Block>)
      requires Valid() && upper < SPACE
      modifies this`at, at.Values
      ensures Valid() && Grew() && trie == old(trie)
      ensures Assigned(old(Tree()), Tree(), lower, Reached(lower, upper), value)
      ensures bs == Split(lower, upper) && |bs| <= 64
    {
      hide Assigned, IsOrder, Order, Split, Pow2, Tree, KidsOk;
      var cur := lower;
      bs := [];
      ghost var t := Tree();
      AssignedNothing(t, lower, value);
      AtMost64Blocks(lower, upper);
      while cur <= upper
        invariant Valid() && Grew() && trie == old(trie) && lower <= cur
        invariant lower <= upper ==> cur <= upper + 1
        invariant cur == lower || cur == SPACE || !(lower == 0 && upper == SPACE - 1)
        invariant Assigned(t, Tree(), lower, if lower == 0 && cur == SPACE then 255 else cur - 1, value)
        invariant bs + Split(cur, upper) == Split(lower, upper)
        invariant lower > upper ==> cur == lower
        decreases upper + 1 - cur
      {
        var size := NextSize(cur, upper);
        ghost var k := Order(cur, upper);
        OrderFits(cur, upper, k);
        if cur == 0 && upper == SPACE - 1 { WholeSpace(k); }
        ghost var t1 := Tree();
        AddCidr(cur, cur + size - 1, value, k);
        AssignedChain(t, t1, Tree(), lower, cur, if size == SPACE then 255 else cur + size - 1, value);
        SplitMore(bs, cur, upper, k);
        bs := bs + [Block(cur, k)];
        cur := cur + size;
      }
      SplitDone(bs, cur, upper);
      if lower > upper { AssignedNowhere(t, Tree(), lower, cur - 1, upper, value); }
    }

    /** add_range: the program runs the loop twice; the second run changes no answer. */
    method AddRange(lower: nat, upper: nat, value: V)
      requires Valid() && upper < SPACE
      modifies this`at, at.Values
      ensures Valid() && Grew() && trie == old(trie)
      ensures Assigned(old(Tree()), Tree(), lower, Reached(lower, upper), value)
    {
      ghost var bs := AddBlocks(lower, upper, value);
      bs := AddBlocks(lower, upper, value);
    }

    /** __setitem__ with an integer key. */
    method SetAddress(a: nat, value: V)
      requires Valid() && a < SPACE
      modifies this`at, at.Values
      ensures Valid() && Grew() && trie == old(trie)
      ensures Assigned(old(Tree()), Tree(), a, a, value)
    {
      assert Pow2(0) == 1 && a % 1 == 0;
      AddCidr(a, a, value, 0);
    }

    /** __setitem__ with a key "address/bits": the network of that size around the address.  With
        no bits at all, only 256 addresses are assigned. */
    method SetNetwork(a: nat, bits: nat, value: V)
      requires Valid() && a < SPACE && bits <= 32
      modifies this`at, at.Values
      ensures Valid() && Grew() && trie == old(trie)
      ensures forall b: nat | b < SPACE ::
                Answer(b) == if SameNetwork(a, b, bits) && (bits > 0 || b < 256) then Some(value) else Follow(old(Tree()), [], Path(b))
    {
      var mask := Pow2(32 - bits) - 1;
      NetworkBounds(a, bits, a);
      var lower := a - And(a, mask);
      var upper := Or(lower, mask);
      ghost var t := Tree();
      ghost var bs := AddBlocks(lower, upper, value);
      forall b: nat | b < SPACE
        ensures Answer(b) == if SameNetwork(a, b, bits) && (bits > 0 || b < 256) then Some(value) else Follow(t, [], Path(b))
      {
        NetworkBounds(a, bits, b);
      }
    }

    /** Any sequence of range assignments: each address answers the last one that reached it. */
    method AssignAll(rs: seq<Range<V>>)
      requires Valid() && forall r | r in rs :: r.upper < SPACE
      modifies this`at, at.Values
      ensures Valid() && Grew() && trie == old(trie)
      ensures forall a: nat | a < SPACE :: Answer(a) == Latest(rs, a, old(Answer(a)))
    {
      var i := 0;
      ghost var t := Tree();
      while i < |rs|
        invariant i <= |rs| && Valid() && Grew() && trie == old(trie)
        invariant forall a: nat | a < SPACE :: Answer(a) == Latest(rs[..i], a, Follow(t, [], Path(a)))
      {
        AddRange(rs[i].lower, rs[i].upper, rs[i].value);
        assert rs[..i + 1][..i] == rs[..i] && rs[..i + 1][i] == rs[i];
        i := i + 1;
      }
      assert rs[..i] == rs;
    }
  }

  datatype Range<V> = Range(lower: nat, upper: nat, value: V)

  /** The range reaches the address: it holds it, or is the whole space and the address is below 256. */
  predicate Covers<V>(r: Range<V>, a: nat) {
    if r.lower == 0 && r.upper == 0xffff_ffff then a < 256 else r.lower <= a <= r.upper
  }

  /** An address no range reaches keeps its answer; otherwise the last range that reaches it decides. */
  lemma {:induction false} LatestSays<V>(rs: seq<Range<V>>, a: nat, before: Option<V>)
    ensures (forall i | 0 <= i < |rs| :: !Covers(rs[i], a)) ==> Latest(rs, a, before) == before
    ensures forall i | 0 <= i < |rs| && Covers(rs[i], a) && (forall j | i < j < |rs| :: !Covers(rs[j], a)) ::
              Latest(rs, a, before) == Some(rs[i].value)
  {
    if rs != [] {
      var front, last := rs[..|rs| - 1], rs[|rs| - 1];
      LatestSays(front, a, before);
      CoversReached(last, a);
      hide Covers, Reached;
      forall i | 0 <= i < |rs| && Covers(rs[i], a) && (forall j | i < j < |rs| :: !Covers(rs[j], a))
        ensures Latest(rs, a, before) == Some(rs[i].value)
      {
        if i < |rs| - 1 { assert front[i] == rs[i] && !Covers(last, a); }
      }
    }
  }

  lemma CoversReached<V>(r: Range<V>, a: nat)
    ensures Covers(r, a) <==> r.lower <= a <= Reached(r.lower, r.upper)
  {}

  lemma WholeSpace(k: nat)
    requires IsOrder(0, SPACE - 1, k)
    ensures Pow2(k) == SPACE
  {
    Pow2Of32();
    OrderIsLargest(0, SPACE - 1, k, 32);
  }

  lemma SplitMore(bs: seq<Block>, cur: nat, upper: nat, k: nat)
    requires cur <= upper && k == Order(cur, upper)
    ensures bs + Split(cur, upper) == bs + [Block(cur, k)] + Split(cur + Pow2(k), upper)
  {}

  lemma SplitDone(bs: seq<Block>, cur: nat, upper: nat)
    requires cur > upper
    ensures bs + Split(cur, upper) == bs
  {}

  lemma OrderFits(lower: nat, upper: nat, k: nat)
    requires IsOrder(lower, upper, k)
    ensures lower % Pow2(k) == 0 && lower + Pow2(k) - 1 <= upper
  {}

  /** The last address an assignment reaches. */
  function Reached(lower: nat, upper: nat): int {
    if lower == 0 && upper == SPACE - 1 then 255 else upper
  }

  /** The plain meaning of a sequence of assignments at one address. */
  function Latest<V>(rs: seq<Range<V>>, a: nat, before: Option<V>): Option<V> {
    if rs == [] then before
    else
      var r := rs[|rs| - 1];
      if r.lower <= a <= Reached(r.lower, r.upper) then Some(r.value) else Latest(rs[..|rs| - 1], a, before)
  }

  /** An assignment means what it says exactly if its range is not the whole address space, or
      everything it fails to reach already answered the value. */
  lemma ReachesAllUnlessWhole<V>(before: Shape<V>, after: Shape<V>, lower: nat, upper: nat, value: V)
    requires upper < SPACE && Assigned(before, after, lower, Reached(lower, upper), value)
    ensures Assigned(before, after, lower, upper, value) <==>
              !(lower == 0 && upper == SPACE - 1) || forall a: nat | 256 <= a < SPACE :: Follow(before, [], Path(a)) == Some(value)
  {
    hide Follow, Path;
    if lower == 0 && upper == SPACE - 1 && Assigned(before, after, lower, upper, value) {
      forall a: nat | 256 <= a < SPACE ensures Follow(before, [], Path(a)) == Some(value) {
        assert Follow(after, [], Path(a)) == Some(value);
      }
    }
  }

  /** Bitwise or. */
  function Or(x: nat, y: nat): nat {
    x + y - And(x, y)
  }

  /** The addresses agree in their first `bits` bits. */
  predicate SameNetwork(a: nat, b: nat, bits: nat)
    requires bits <= 32
  {
    a / Pow2(32 - bits) == b / Pow2(32 - bits)
  }

  lemma NetworkMask(a: nat, bits: nat)
    requires a < SPACE && bits <= 32
    ensures var p := Pow2(32 - bits);
            p >= 1 && And(a, p - 1) == a % p && a % p <= a && And(a - a % p, p - 1) == 0
  {
    hide And, Pow2;
    AndMask(a, 32 - bits);
    WholePart(a, Pow2(32 - bits));
    AndMask(a - a % Pow2(32 - bits), 32 - bits);
  }

  lemma WholePart(a: nat, p: nat)
    requires p >= 1
    ensures a % p <= a && (a - a % p) % p == 0
  {
    NetworkStart(a, p);
  }

  lemma NetworkSize(bits: nat)
    requires bits <= 32
    ensures Pow2(32 - bits) >= 1 && Pow2(32 - bits) * Pow2(bits) == SPACE
  {
    hide Pow2;
    Pow2Of32();
    Pow2Splits(32 - bits, 32);
  }

  lemma NetworkBounds(a: nat, bits: nat, b: nat)
    requires a < SPACE && b < SPACE && bits <= 32
    ensures var mask := Pow2(32 - bits) - 1;
            && And(a, mask) <= a && And(a - And(a, mask), mask) == 0
            && var lower := a - And(a, mask);
               var upper := lower + mask;
               && upper < SPACE
               && (lower <= b <= upper <==> SameNetwork(a, b, bits))
               && (lower == 0 && upper == SPACE - 1 <==> bits == 0)
  {
    hide And, Pow2, SameNetwork;
    NetworkMask(a, bits);
    NetworkSpan(a, bits, b);
    NetworkAll(a, bits);
  }

  lemma NetworkSpan(a: nat, bits: nat, b: nat)
    requires a < SPACE && b < SPACE && bits <= 32
    ensures Pow2(32 - bits) >= 1
    ensures var p := Pow2(32 - bits);
            var lower := a - a % p;
            lower + (p - 1) < SPACE && (lower <= b <= lower + (p - 1) <==> SameNetwork(a, b, bits))
  {
    hide And, Pow2;
    NetworkSize(bits);
    NetworkRange(a, Pow2(32 - bits), Pow2(bits), b);
  }

  lemma NetworkAll(a: nat, bits: nat)
    requires a < SPACE && bits <= 32
    ensures Pow2(32 - bits) >= 1
    ensures var p := Pow2(32 - bits);
            var lower := a - a % p;
            lower == 0 && lower + (p - 1) == SPACE - 1 <==> bits == 0
  {
    hide And, Pow2;
    NetworkSize(bits);
    NetworkWhole(a, bits);
    Pow2Of32();
    WholeIs(a, Pow2(32 - bits));
  }

  /** A network of `p` addresses around `a` is the whole space only if there are so many. */
  lemma WholeIs(a: nat, p: nat)
    requires a < SPACE && 1 <= p <= SPACE
    ensures a - a % p == 0 && a - a % p + p - 1 == SPACE - 1 <==> p == SPACE
  {}

  lemma NetworkRange(a: nat, p: nat, c: nat, b: nat)
    requires p >= 1 && a < p * c
    ensures var lower := a - a % p;
            lower + (p - 1) < p * c && (lower <= b <= lower + (p - 1) <==> a / p == b / p)
  {
    NetworkStart(a, p);
    NetworkEnd(a, p, c);
    UnitRange(a / p, 1, p, b);
  }

  /** Only a network without bits is the whole space. */
  lemma NetworkWhole(a: nat, bits: nat)
    requires a < SPACE && bits <= 32
    ensures bits == 0 ==> Pow2(32 - bits) == SPACE && a % SPACE == a
    ensures bits > 0 ==> Pow2(32 - bits) < SPACE
  {
    Pow2Of32();
    Pow2Monotone(32 - bits, 32);
    Pow2Monotone(32, 32 - bits);
  }

  lemma NetworkStart(a: nat, p: nat)
    requires p >= 1
    ensures a - a % p == (a / p) * p && (a - a % p) % p == 0 && (a / p + 1) * p == (a / p) * p + p
  {
    ModUnique((a / p) * p, p, a / p, 0);
  }

  lemma NetworkEnd(a: nat, p: nat, c: nat)
    requires p >= 1 && a < p * c
    ensures (a / p) * p + p <= p * c
  {
    var q := a / p;
    if q >= c { TimesMonotone(c, q, p); assert false; }
    TimesMonotone(q + 1, c, p);
  }

  /** The answers after the addresses from `lower` to `upper` have got the value. */
  ghost predicate Assigned<V>(before: Shape<V>, after: Shape<V>, lower: nat, upper: int, value: V) {
    forall a: nat | a < SPACE ::
      Follow(after, [], Path(a)) == if lower <= a <= upper then Some(value) else Follow(before, [], Path(a))
  }

  lemma AssignedNothing<V>(t: Shape<V>, lower: nat, value: V)
    ensures Assigned(t, t, lower, lower - 1, value)
  {}

  lemma AssignedNowhere<V>(t: Shape<V>, t': Shape<V>, lower: nat, u1: int, u2: int, value: V)
    requires Assigned(t, t', lower, u1, value) && u1 < lower && u2 < lower
    ensures Assigned(t, t', lower, u2, value)
  {}

  lemma AssignedChain<V>(t0: Shape<V>, t1: Shape<V>, t2: Shape<V>, lower: nat, mid: nat, upper: int, value: V)
    requires Assigned(t0, t1, lower, mid - 1, value) && Assigned(t1, t2, mid, upper, value)
    requires lower <= mid && mid <= upper + 1
    ensures Assigned(t0, t2, lower, upper, value)
  {
    hide Follow, Path;
  }

  /** The paths that begin like `lo`, up to a byte at `index` from lo[index] to below `x`. */
  ghost predicate InSlice(lo: seq<int>, index: nat, x: int, full: seq<int>)
    requires index < 4 && |lo| == 4
  {
    IsPath(full) && full[..index] == lo[..index] && lo[index] <= full[index] < x
  }

  lemma SpaceEnd(lower: nat, upper: nat)
    requires lower <= upper < SPACE
    ensures upper - lower + 1 == SPACE ==> upper == SPACE - 1
  {}

  lemma SliceStart(lo: seq<int>, index: nat)
    requires index < 4 && |lo| == 4
    ensures forall full | IsPath(full) :: !InSlice(lo, index, lo[index], full)
  {}

  lemma SliceStep(lo: seq<int>, index: nat, x: int, full: seq<int>)
    requires index < 4 && |lo| == 4 && lo[index] <= x && IsPath(full)
    ensures InSlice(lo, index, x + 1, full) <==> InSlice(lo, index, x, full) || lo[..index] + [x] <= full
  {
    var p := lo[..index] + [x];
    if p <= full {
      assert p[..index] == full[..index] && p[index] == full[index];
    }
    if full[..index] == lo[..index] && full[index] == x {
      assert full[..index + 1] == p;
    }
  }

  /** A block is no larger than the space. */
  lemma OrderOfSize(k: nat)
    requires Pow2(k) <= SPACE
    ensures k <= 32
  {
    Pow2Of32();
    Pow2Monotone(k, 32);
  }

  lemma LogOfPow2(k: nat)
    requires k <= 32
    ensures Log256(Pow2(k)) == k / 8
  {
    if k < 8 {
      Pow2Monotone(k + 1, 8);
      Pow2Of32();
    } else {
      Pow2Monotone(8, k);
      Pow2Of32();
      PowPlus8(k - 8);
      LogOfPow2(k - 8);
    }
  }

  lemma PowPlus8(k: nat)
    ensures Pow2(k + 8) == 256 * Pow2(k)
  {
    assert Pow2(k + 1) == 2 * Pow2(k);
    assert Pow2(k + 2) == 2 * Pow2(k + 1);
    assert Pow2(k + 3) == 2 * Pow2(k + 2);
    assert Pow2(k + 4) == 2 * Pow2(k + 3);
    assert Pow2(k + 5) == 2 * Pow2(k + 4);
    assert Pow2(k + 6) == 2 * Pow2(k + 5);
    assert Pow2(k + 7) == 2 * Pow2(k + 6);
  }

  /** Within 256 consecutive numbers, an aligned run of 2^j numbers is a run of last bytes. */
  lemma RunOfBytes(l: nat, j: nat, b: nat)
    requires j < 8 && l % Pow2(j) == 0
    ensures l % 256 + Pow2(j) <= 256 && (l + Pow2(j) - 1) % 256 == l % 256 + Pow2(j) - 1
    ensures l <= b < l + Pow2(j) <==> b / 256 == l / 256 && l % 256 <= b % 256 < l % 256 + Pow2(j)
  {
    RunEnds(l, j);
    RunAt(l / 256, l % 256, Pow2(j), b);
    assert l == 256 * (l / 256) + l % 256;
  }

  lemma RunAt(g: nat, h: nat, w: nat, b: nat)
    requires 1 <= w && h + w <= 256
    ensures (256 * g + h + w - 1) % 256 == h + w - 1
    ensures 256 * g + h <= b < 256 * g + h + w <==> b / 256 == g && h <= b % 256 < h + w
  {
    assert b == 256 * (b / 256) + b % 256;
  }

  lemma RunEnds(l: nat, j: nat)
    requires j < 8 && l % Pow2(j) == 0
    ensures l % 256 + Pow2(j) <= 256
  {
    Pow2Of32();
    Pow2Splits(j, 8);
    RunEndsAt(l, Pow2(j), Pow2(8 - j));
  }

  lemma {:induction false} Pow2Splits(j: nat, k: nat)
    requires j <= k
    ensures Pow2(k) == Pow2(j) * Pow2(k - j)
    decreases j
  {
    if j > 0 { Pow2Splits(j - 1, k - 1); }
  }

  lemma RunEndsAt(l: nat, w: nat, c: nat)
    requires w >= 1 && 256 == w * c && l % w == 0
    ensures l % 256 + w <= 256
  {
    var q, g, h := l / w, l / 256, l % 256;
    var m := q - c * g;
    assert h == l - 256 * g == q * w - (w * c) * g == m * w;
    if m >= c { TimesMonotone(c, m, w); assert false; }
    TimesMonotone(m + 1, c, w);
  }

  lemma PowUnit(k: nat)
    requires k < 32
    ensures Pow2(k) == Unit(3 - k / 8) * Pow2(k % 8)
  {
    if k >= 8 {
      PowPlus8(k - 8);
      PowUnit(k - 8);
      assert (k - 8) / 8 == k / 8 - 1 && (k - 8) % 8 == k % 8;
    }
  }

  /** An address lies in the block exactly if its bytes lie in the slice the block is written as. */
  lemma BlockSlice(lower: nat, k: nat, a: nat)
    requires k <= 32 && a < SPACE && lower % Pow2(k) == 0 && lower + Pow2(k) <= SPACE
    ensures Pow2(k) == SPACE <==> k == 32
    ensures k == 32 ==> (InSlice(Path(lower), 3, Path(SPACE - 1)[3] + 1, Path(a)) <==> a < 256) && lower == 0
    ensures k < 32 ==>
              var n := 3 - k / 8;
              InSlice(Path(lower), n, Path(lower + Pow2(k) - 1)[n] + 1, Path(a)) <==> lower <= a < lower + Pow2(k)
  {
    Pow2Of32();
    Pow2Monotone(k, 32);
    hide Pow2;
    if k < 32 {
      BlockSlicePart(lower, k, a);
    } else {
      assert lower == 0;
      PathIsPath(a);
      FirstBytes(a);
    }
  }

  lemma FirstBytes(a: nat)
    requires a < SPACE
    ensures Path(a)[..3] == Path(0)[..3] <==> a < 256
    ensures Path(0)[3] == 0 && Path(SPACE - 1)[3] == 255
  {
    TakePath(a);
    TakePath(0);
  }

  lemma BlockSlicePart(lower: nat, k: nat, a: nat)
    requires k < 32 && a < SPACE && lower % Pow2(k) == 0 && lower + Pow2(k) <= SPACE
    ensures var n := 3 - k / 8;
            InSlice(Path(lower), n, Path(lower + Pow2(k) - 1)[n] + 1, Path(a)) <==> lower <= a < lower + Pow2(k)
  {
    hide Path, Unit, Pow2, Above, InSlice;
    var n, j := 3 - k / 8, k % 8;
    var upper := lower + Pow2(k) - 1;
    BlockUnits(lower, k, a);
    RunOfBytes(Above(lower, n), j, Above(a, n));
    SliceBytes(lower, upper, a, n);
  }

  /** A slice, by what is above its last byte and by that byte. */
  lemma SliceBytes(lower: nat, upper: nat, a: nat, n: nat)
    requires lower < SPACE && upper < SPACE && a < SPACE && n < 4
    ensures InSlice(Path(lower), n, Path(upper)[n] + 1, Path(a))
            <==> Above(a, n) / 256 == Above(lower, n) / 256
                 && Above(lower, n) % 256 <= Above(a, n) % 256 < Above(upper, n) % 256 + 1
  {
    hide Path, Above;
    PathPrefix(a, lower, n);
    PathPrefix(lower, lower, n);
    PathPrefix(upper, lower, n);
    PathIsPath(a);
  }

  /** The block, in units. */
  lemma BlockUnits(lower: nat, k: nat, a: nat)
    requires k < 32 && lower % Pow2(k) == 0
    ensures var n, w := 3 - k / 8, Pow2(k % 8);
            && Above(lower, n) % w == 0 && Above(lower + Pow2(k) - 1, n) == Above(lower, n) + w - 1
            && (lower <= a < lower + Pow2(k) <==> Above(lower, n) <= Above(a, n) < Above(lower, n) + w)
  {
    PowUnit(k);
    UnitBlock(lower, Unit(3 - k / 8), Pow2(k % 8), a);
  }

  lemma PathIsPath(a: nat)
    requires a < SPACE
    ensures IsPath(Path(a))
  {}

  /** An aligned block in units of `u`. */
  lemma UnitBlock(lower: nat, u: nat, w: nat, a: nat)
    requires u >= 1 && w >= 1 && lower % (u * w) == 0
    ensures (lower / u) % w == 0 && (lower + u * w - 1) / u == lower / u + w - 1
    ensures lower <= a < lower + u * w <==> lower / u <= a / u < lower / u + w
  {
    var q := lower / (u * w);
    var l := q * w;
    assert lower == q * (u * w);
    Regroup(q, u, w);
    ModUnique(lower, u, l, 0);
    ModUnique(l, w, q, 0);
    ModUnique(lower + u * w - 1, u, l + w - 1, u - 1);
    UnitRange(l, w, u, a);
  }

  lemma Regroup(q: nat, u: nat, w: nat)
    ensures q * (u * w) == (q * w) * u
    ensures q * (u * w) + u * w == (q * w + w) * u
    ensures q * (u * w) + u * w - 1 == (q * w + w - 1) * u + (u - 1)
  {
    assert q * (u * w) == (q * w) * u;
    assert (q * w + w) * u == (q * w) * u + w * u;
    assert (q * w + w - 1) * u == (q * w + w) * u - u;
  }

  lemma UnitRange(l: nat, w: nat, u: nat, a: nat)
    requires u >= 1
    ensures l * u <= a < (l + w) * u <==> l <= a / u < l + w
  {
    var b, r := a / u, a % u;
    assert a == b * u + r;
    if b < l { assert b * u + u <= l * u by { TimesMonotone(b + 1, l, u); } }
    if b >= l { TimesMonotone(l, b, u); }
    if b >= l + w { TimesMonotone(l + w, b, u); }
    if b < l + w { TimesMonotone(b + 1, l + w, u); }
  }

  lemma TimesMonotone(x: int, y: int, u: nat)
    requires x <= y
    ensures x * u <= y * u
  {
    assert (y - x) * u >= 0;
  }
}
