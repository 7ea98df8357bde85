/** Splitting an IPv4 address range into aligned power-of-two blocks. */
module IpBlocks {
  // _next and _valid of common/iprange.py, and the greedy loop of RangeTable._add_range.

  import opened Prelude

  const SPACE: nat := 0x1_0000_0000

  function Pow2(k: nat): (p: nat)
    ensures p >= 1
  {
    if k == 0 then 1 else 2 * Pow2(k - 1)
  }

  /** Bitwise and. */
  function And(x: nat, y: nat): (r: nat)
    ensures r <= y
    decreases x
  {
    if x == 0 || y == 0 then 0
    else 2 * And(x / 2, y / 2) + (x % 2) * (y % 2)
  }

  /** Masking with 2^k - 1 is taking the remainder modulo 2^k. */
  lemma {:induction false} AndMask(x: nat, k: nat)
    ensures And(x, Pow2(k) - 1) == x % Pow2(k)
    decreases k
  {
    if k > 0 && x > 0 {
      var p := Pow2(k - 1);
      AndMask(x / 2, k - 1);
      assert (2 * p - 1) / 2 == p - 1 && (2 * p - 1) % 2 == 1;
      ModDouble(x, p);
    } else if x == 0 {
      assert 0 % Pow2(k) == 0;
    }
  }

  lemma ModDouble(x: nat, p: nat)
    requires p >= 1
    ensures x % (2 * p) == 2 * ((x / 2) % p) + x % 2
  {
    var q, r := (x / 2) / p, (x / 2) % p;
    assert x / 2 == q * p + r;
    assert x == q * (2 * p) + (2 * r + x % 2);
    ModUnique(x, 2 * p, q, 2 * r + x % 2);
  }

  /** _valid: no bit of `lower` lies under the mask `upper - lower`. */
  predicate IsValid(lower: nat, upper: nat)
    requires lower <= upper
  {
    And(lower, upper - lower) == 0
  }

  /** The block of 2^k addresses starting at `lower` is aligned and ends no later than `upper`. */
  predicate Fits(lower: nat, upper: nat, k: nat) {
    lower % Pow2(k) == 0 && lower + Pow2(k) - 1 <= upper
  }

  lemma ValidIsAligned(lower: nat, k: nat)
    ensures IsValid(lower, lower + Pow2(k) - 1) <==> lower % Pow2(k) == 0
  {
    AndMask(lower, k);
  }

  /** A block that fits contains a smaller one that fits. */
  lemma {:induction false} FitsSmaller(lower: nat, upper: nat, j: nat, k: nat)
    requires Fits(lower, upper, k) && j <= k
    ensures Fits(lower, upper, j) && Pow2(j) <= Pow2(k)
    decreases k - j
  {
    if j < k {
      ModDouble(lower, Pow2(k - 1));
      assert lower % Pow2(k - 1) == 0 by { HalfAligned(lower, Pow2(k - 1)); }
      FitsSmaller(lower, upper, j, k - 1);
    }
  }

  lemma HalfAligned(x: nat, p: nat)
    requires p >= 1 && x % (2 * p) == 0
    ensures x % p == 0
  {
    var q := x / (2 * p);
    assert x == q * (2 * p) == (2 * q) * p;
    ModUnique(x, p, 2 * q, 0);
  }

  /** The order of the largest block at `lower` that fits. */
  ghost predicate IsOrder(lower: nat, upper: nat, k: nat) {
    Fits(lower, upper, k) && !Fits(lower, upper, k + 1)
  }

  /** No larger block fits, not just not the next. */
  lemma OrderIsLargest(lower: nat, upper: nat, k: nat, j: nat)
    requires IsOrder(lower, upper, k) && Fits(lower, upper, j)
    ensures j <= k && Pow2(j) <= Pow2(k)
  {
    if j > k { FitsSmaller(lower, upper, k + 1, j); }
    else { FitsSmaller(lower, upper, j, k); }
  }

  /** The order of the next block, as a function. */
  ghost function Order(lower: nat, upper: nat): (k: nat)
    requires lower <= upper
    ensures IsOrder(lower, upper, k)
  {
    OrderFrom(lower, upper, 0)
  }

  ghost function OrderFrom(lower: nat, upper: nat, k: nat): (r: nat)
    requires Fits(lower, upper, k)
    ensures IsOrder(lower, upper, r)
    decreases upper + 1 - Pow2(k)
  {
    if Fits(lower, upper, k + 1) then OrderFrom(lower, upper, k + 1) else k
  }

  lemma OrderUnique(lower: nat, upper: nat, j: nat, k: nat)
    requires IsOrder(lower, upper, j) && IsOrder(lower, upper, k)
    ensures j == k
  {
    OrderIsLargest(lower, upper, j, k);
    OrderIsLargest(lower, upper, k, j);
  }

  /** _next: double the size while the block fits. */
  method NextSize(lower: nat, upper: nat) returns (size: nat)
    requires lower <= upper
    ensures size == Pow2(Order(lower, upper))
  {
    size := 2;
    ghost var j, k := 1, 0;
    ValidIsAligned(lower, 1);
    while lower + size - 1 <= upper && IsValid(lower, lower + size - 1)
      invariant size == Pow2(j) && j == k + 1 && Fits(lower, upper, k)
      invariant IsValid(lower, lower + size - 1) <==> lower % Pow2(j) == 0
      decreases upper + 2 - size
    {
      size := size * 2;
      k := j;
      j := j + 1;
      ValidIsAligned(lower, j);
    }
    size := size / 2;
    OrderUnique(lower, upper, k, Order(lower, upper));
  }

  // ---- The greedy split ----------------------------------------------------------------------

  datatype Block = Block(start: nat, order: nat) {
    function Size(): nat { Pow2(order) }
    function End(): nat { start + Size() }
  }

  /** The blocks of the loop in _add_range. */
  ghost function Split(lower: nat, upper: nat): seq<Block>
    decreases upper + 1 - lower
  {
    if lower > upper then []
    else
      var k := Order(lower, upper);
      [Block(lower, k)] + Split(lower + Pow2(k), upper)
  }

  /** Aligned blocks, one after the other from `lower` to `upper`, each the largest that fits. */
  ghost predicate Tiles(bs: seq<Block>, lower: nat, upper: int) {
    if bs == [] then lower == upper + 1
    else
      && bs[0].start == lower && upper >= 0 && IsOrder(lower, upper, bs[0].order)
      && Tiles(bs[1..], bs[0].End(), upper)
  }

  lemma {:induction false} SplitTiles(lower: nat, upper: nat)
    requires lower <= upper + 1
    ensures Tiles(Split(lower, upper), lower, upper)
    decreases upper + 1 - lower
  {
    if lower <= upper {
      var k := Order(lower, upper);
      SplitTiles(lower + Pow2(k), upper);
      assert Split(lower, upper)[1..] == Split(lower + Pow2(k), upper);
    }
  }

  /** An address lies in exactly one block if it is in the range, and in none otherwise. */
  lemma {:induction false} TilesCover(bs: seq<Block>, lower: nat, upper: int, a: nat)
    requires Tiles(bs, lower, upper)
    ensures lower <= a <= upper <==> exists i :: 0 <= i < |bs| && bs[i].start <= a < bs[i].End()
    ensures forall i, j | 0 <= i < j < |bs| :: bs[i].End() <= bs[j].start
    ensures forall i | 0 <= i < |bs| :: lower <= bs[i].start && bs[i].End() <= upper + 1
  {
    if bs != [] {
      TilesCover(bs[1..], bs[0].End(), upper, a);
      forall i | 0 <= i < |bs| ensures lower <= bs[i].start && bs[i].End() <= upper + 1 {
        if i > 0 { assert bs[i] == bs[1..][i - 1]; }
      }
      forall i, j | 0 <= i < j < |bs| ensures bs[i].End() <= bs[j].start {
        assert bs[j] == bs[1..][j - 1];
        if i > 0 { assert bs[i] == bs[1..][i - 1]; }
      }
      if lower <= a <= upper {
        if a >= bs[0].End() {
          var i :| 0 <= i < |bs[1..]| && bs[1..][i].start <= a < bs[1..][i].End();
          assert bs[i + 1] == bs[1..][i];
        } else {
          assert bs[0].start <= a < bs[0].End();
        }
      }
    }
  }

  // ---- At most 64 blocks ---------------------------------------------------------------------

  lemma {:induction false} Pow2Monotone(j: nat, k: nat)
    ensures j <= k <==> Pow2(j) <= Pow2(k)
    ensures j < k ==> 2 * Pow2(j) <= Pow2(k)
    decreases j + k
  {
    if j > 0 && k > 0 { Pow2Monotone(j - 1, k - 1); }
  }

  /** Once less than a block of order k is left, at most k more blocks follow. */
  lemma {:induction false} Descending(lower: nat, upper: nat, k: nat)
    requires lower <= upper + 1 && lower % Pow2(k) == 0 && upper + 1 - lower < Pow2(k)
    ensures |Split(lower, upper)| <= k
    decreases k
  {
    if lower <= upper {
      var j := Order(lower, upper);
      if j >= k { Pow2Monotone(k, j); assert false; }
      // the block stops short because the next size would not fit, not because of alignment
      AlignedBelow(lower, j + 1, k);
      NextAligned(lower, j);
      Descending(lower + Pow2(j), upper, j);
    }
  }

  lemma {:induction false} AlignedBelow(x: nat, j: nat, k: nat)
    requires j <= k && x % Pow2(k) == 0
    ensures x % Pow2(j) == 0
    decreases k - j
  {
    if j < k {
      HalfAligned(x, Pow2(k - 1));
      AlignedBelow(x, j, k - 1);
    }
  }

  lemma NextAligned(x: nat, k: nat)
    requires x % Pow2(k) == 0
    ensures (x + Pow2(k)) % Pow2(k) == 0
  {
    var p := Pow2(k);
    assert x + p == (x / p + 1) * p + 0;
    ModUnique(x + p, p, x / p + 1, 0);
  }

  /** A block that is held back by its alignment ends at a better aligned address. */
  lemma OddAligned(x: nat, k: nat)
    requires x % Pow2(k) == 0 && x % Pow2(k + 1) != 0
    ensures (x + Pow2(k)) % Pow2(k + 1) == 0
  {
    var p := Pow2(k);
    var h := x / p;
    assert x == h * p;
    var g := h / 2;
    if h % 2 == 0 {
      assert h * p == (2 * g) * p == g * (2 * p);
      ModUnique(x, 2 * p, g, 0);
    } else {
      assert h * p + p == (2 * g + 1) * p + p == (g + 1) * (2 * p);
      ModUnique(x + p, 2 * p, g + 1, 0);
    }
  }

  /** While blocks grow, each has a larger order than the last; then they shrink. */
  lemma {:induction false} Ascending(lower: nat, upper: nat, k: nat, n: nat)
    requires lower <= upper + 1 <= Pow2(n) && k <= n && 1 <= n && lower % Pow2(k) == 0
    ensures |Split(lower, upper)| <= 2 * n - k
    decreases n - k
  {
    if lower <= upper {
      var j := Order(lower, upper);
      Pow2Monotone(j, n);
      NextAligned(lower, j);
      var lower' := lower + Pow2(j);
      if j == n {
        LastBlock(lower, upper, n);
      } else if lower % Pow2(j + 1) != 0 {
        if j < k { AlignedBelow(lower, j + 1, k); assert false; }
        OddAligned(lower, j);
        Ascending(lower', upper, j + 1, n);
      } else {
        // the next size does not fit: less than a block of this order is left
        Descending(lower', upper, j);
      }
    }
  }

  lemma LastBlock(lower: nat, upper: nat, n: nat)
    requires lower <= upper && upper + 1 <= Pow2(n) && Order(lower, upper) == n
    ensures |Split(lower, upper)| == 1
  {
    assert lower == 0 && upper + 1 == Pow2(n);
    assert Split(Pow2(n), upper) == [];
  }

  /** A range of 32-bit addresses is split into at most 64 blocks. */
  lemma AtMost64Blocks(lower: nat, upper: nat)
    requires upper < SPACE
    ensures |Split(lower, upper)| <= 64
  {
    Pow2Of32();
    if lower <= upper {
      assert lower % Pow2(0) == 0;
      Ascending(lower, upper, 0, 32);
    }
  }

  lemma Pow2Of32()
    ensures Pow2(8) == 0x100 && Pow2(16) == 0x1_0000 && Pow2(24) == 0x100_0000 && Pow2(32) == SPACE
  {
    assert Pow2(4) == 16;
    assert Pow2(8) == 0x100;
    assert Pow2(12) == 0x1000;
    assert Pow2(16) == 0x1_0000;
    assert Pow2(20) == 0x10_0000;
    assert Pow2(24) == 0x100_0000;
    assert Pow2(28) == 0x1000_0000;
  }
}
