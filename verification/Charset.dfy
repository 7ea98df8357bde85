/** The string escaper of common/charset.py. */
module Charset {
  // A byte string is scanned for maximal runs of valid UTF-8 sequences; what lies between them is
  // written as \xNN.

  import opened Prelude

  type byte = b: int | 0 <= b < 256

  const BACKSLASH: byte := 0x5c

  predicate Between(b: byte, lo: int, hi: int) { lo <= b <= hi }

  predicate Cont(b: byte) { Between(b, 0x80, 0xbf) }

  predicate Plain(b: byte) { b == 0x09 || b == 0x0a || Between(b, 0x20, 0x7e) }

  /** One alternative of _valid_utf8 at the front of `s`: its length, 0 if none matches. */
  function UnitLen(s: seq<byte>): (n: nat)
    ensures n <= |s| && n <= 4
  {
    if s == [] then 0
    else
      var b := s[0];
      if Plain(b) then 1
      else if Between(b, 0xc2, 0xdf) && |s| >= 2 && Cont(s[1]) then 2
      else if b == 0xe0 && |s| >= 3 && Between(s[1], 0xa0, 0xbf) && Cont(s[2]) then 3
      else if Between(b, 0xe1, 0xec) && |s| >= 3 && Cont(s[1]) && Cont(s[2]) then 3
      else if b == 0xed && |s| >= 3 && Between(s[1], 0x80, 0x9f) && Cont(s[2]) then 3
      else if Between(b, 0xee, 0xef) && |s| >= 3 && Cont(s[1]) && Cont(s[2]) then 3
      else if b == 0xf0 && |s| >= 4 && Between(s[1], 0x90, 0xbf) && Cont(s[2]) && Cont(s[3]) then 4
      else if Between(b, 0xf1, 0xf3) && |s| >= 4 && Cont(s[1]) && Cont(s[2]) && Cont(s[3]) then 4
      else if b == 0xf4 && |s| >= 4 && Between(s[1], 0x80, 0x8f) && Cont(s[2]) && Cont(s[3]) then 4
      else 0
  }

  // ---- Against the encoding of section 3 of RFC 3629 -----------------------------------------

  /** The code points the pattern is meant for: Unicode scalar values, without most control characters. */
  predicate Allowed(c: nat) {
    c == 0x09 || c == 0x0a || 0x20 <= c <= 0x7e || 0x80 <= c <= 0xd7ff || 0xe000 <= c <= 0x10ffff
  }

  function Encode(c: nat): (s: seq<byte>)
    requires c <= 0x10ffff
    ensures 1 <= |s| <= 4
  {
    if c < 0x80 then [c]
    else if c < 0x800 then [0xc0 + c / 0x40, 0x80 + c % 0x40]
    else if c < 0x1_0000 then [0xe0 + c / 0x1000, 0x80 + c / 0x40 % 0x40, 0x80 + c % 0x40]
    else [0xf0 + c / 0x4_0000, 0x80 + c / 0x1000 % 0x40, 0x80 + c / 0x40 % 0x40, 0x80 + c % 0x40]
  }

  /** The code point of a matched sequence. */
  function Decode(u: seq<byte>): int
    requires 1 <= |u| <= 4
  {
    var v := seq(|u|, i requires 0 <= i < |u| => u[i] as int);
    match |u|
    case 1 => v[0]
    case 2 => (v[0] - 0xc0) * 0x40 + (v[1] - 0x80)
    case 3 => (v[0] - 0xe0) * 0x1000 + (v[1] - 0x80) * 0x40 + (v[2] - 0x80)
    case _ => (v[0] - 0xf0) * 0x4_0000 + (v[1] - 0x80) * 0x1000 + (v[2] - 0x80) * 0x40 + (v[3] - 0x80)
  }

  /** What the pattern matches is the encoding of an allowed code point. */
  lemma MatchIsEncoding(s: seq<byte>)
    requires UnitLen(s) > 0
    ensures var u := s[..UnitLen(s)]; var c := Decode(u);
            c >= 0 && Allowed(c) && Encode(c) == u
  {
    var u := s[..UnitLen(s)];
    if |u| == 4 { LongMatch(s); }
    if |u| == 3 { ThreeBytes(u[0] - 0xe0, u[1] - 0x80, u[2] - 0x80); }
  }

  lemma LongMatch(s: seq<byte>)
    requires UnitLen(s) == 4
    ensures var u := s[..4]; var c := Decode(u);
            c >= 0 && Allowed(c) && Encode(c) == u
  {
    var u := s[..4];
    FourBytes(u[0] - 0xf0, u[1] - 0x80, u[2] - 0x80, u[3] - 0x80);
  }

  lemma ThreeBytes(a: int, b: int, c: int)
    requires 0 <= a && 0 <= b < 0x40 && 0 <= c < 0x40
    ensures var x := a * 0x1000 + b * 0x40 + c; x % 0x40 == c && x / 0x40 % 0x40 == b && x / 0x1000 == a
  {
    assert (a * 0x1000 + b * 0x40 + c) / 0x40 == a * 0x40 + b;
  }

  lemma FourBytes(a: int, b: int, c: int, d: int)
    requires 0 <= a && 0 <= b < 0x40 && 0 <= c < 0x40 && 0 <= d < 0x40
    ensures var x := a * 0x4_0000 + b * 0x1000 + c * 0x40 + d;
            x % 0x40 == d && x / 0x40 % 0x40 == c && x / 0x1000 % 0x40 == b && x / 0x4_0000 == a
  {
    var x := a * 0x4_0000 + b * 0x1000 + c * 0x40 + d;
    assert x / 0x40 == a * 0x1000 + b * 0x40 + c;
    assert x / 0x1000 == a * 0x40 + b;
  }

  /** The encoding of every allowed code point is matched, whatever follows. */
  lemma EncodingIsMatched(c: nat, rest: seq<byte>)
    requires Allowed(c)
    ensures UnitLen(Encode(c) + rest) == |Encode(c)|
  {}

  // ---- Runs and gaps -------------------------------------------------------------------------

  /** `s` is a concatenation of sequences the pattern matches. */
  predicate ValidUtf8(s: seq<byte>) {
    s == [] || (UnitLen(s) > 0 && ValidUtf8(s[UnitLen(s)..]))
  }

  /** The length of the longest run of matches at the front. */
  function RunLen(s: seq<byte>): (n: nat)
    ensures n <= |s| && (UnitLen(s) > 0 ==> n > 0)
  {
    if UnitLen(s) == 0 then 0 else UnitLen(s) + RunLen(s[UnitLen(s)..])
  }

  /** The number of bytes before the first match. */
  function GapLen(s: seq<byte>): (n: nat)
    ensures n <= |s| && (n < |s| ==> UnitLen(s[n..]) > 0)
  {
    if s == [] || UnitLen(s) > 0 then 0 else 1 + GapLen(s[1..])
  }

  lemma OddLonger(two: seq<seq<byte>>, rest: seq<seq<byte>>)
    requires |two| == 2 && |rest| % 2 == 1
    ensures |two + rest| % 2 == 1
  {}

  /** _valid_utf8.split: gaps at even positions, the captured runs at odd ones. */
  function Split(s: seq<byte>): (parts: seq<seq<byte>>)
    ensures |parts| % 2 == 1
    decreases |s|
  {
    hide UnitLen;
    var g := GapLen(s);
    if g == |s| then [s]
    else
      var r := RunLen(s[g..]);
      var rest := Split(s[g + r..]);
      OddLonger([s[..g], s[g..g + r]], rest);
      [s[..g], s[g..g + r]] + rest
  }

  // ---- Escaping ------------------------------------------------------------------------------

  function HexDigit(n: nat): byte
    requires n < 16
  {
    if n < 10 then 0x30 + n else 0x61 + n - 10
  }

  /** '\\x%02x' % b */
  function Hex(b: byte): seq<byte> {
    [BACKSLASH, 0x78, HexDigit(b / 16), HexDigit(b % 16)]
  }

  function HexAll(s: seq<byte>): seq<byte> {
    if s == [] then [] else Hex(s[0]) + HexAll(s[1..])
  }

  /** replace('\\', '\\\\') */
  function Doubled(s: seq<byte>): seq<byte> {
    if s == [] then [] else DoubledByte(s[0]) + Doubled(s[1..])
  }

  function DoubledByte(b: byte): seq<byte> {
    if b == BACKSLASH then [BACKSLASH, BACKSLASH] else [b]
  }

  /** _escape, for the part at position `i`. */
  function Escape(i: nat, part: seq<byte>, reversible: bool): seq<byte> {
    if i % 2 == 1 then Shown(part, reversible) else HexAll(part)
  }

  /** What a run of matches becomes. */
  function Shown(part: seq<byte>, reversible: bool): seq<byte> {
    if reversible then Doubled(part) else part
  }

  /** ''.join over the enumerated parts, from position `i` on. */
  function Joined(i: nat, parts: seq<seq<byte>>, reversible: bool): seq<byte>
    decreases |parts|
  {
    if parts == [] then [] else Escape(i, parts[0], reversible) + Joined(i + 1, parts[1..], reversible)
  }

  /** escape_str_strict */
  function EscapeStrict(s: seq<byte>, reversible: bool): seq<byte> {
    Joined(0, Split(s), reversible)
  }

  /** safe_str, on a byte string. */
  function SafeStr(s: seq<byte>): seq<byte> {
    EscapeStrict(s, false)
  }

  /** is_safe_str */
  predicate IsSafeStr(s: seq<byte>) {
    EscapeStrict(s, false) == s
  }

  /** Escaping described without parts: match by match, and byte by byte where nothing matches. */
  function ByUnit(s: seq<byte>, reversible: bool): seq<byte> {
    if s == [] then []
    else if UnitLen(s) == 0 then Hex(s[0]) + ByUnit(s[1..], reversible)
    else Shown(s[..UnitLen(s)], reversible) + ByUnit(s[UnitLen(s)..], reversible)
  }

  lemma Associative(x: seq<byte>, y: seq<byte>, z: seq<byte>)
    ensures (x + y) + z == x + (y + z)
  {}

  lemma {:induction false} DoubledAppend(a: seq<byte>, b: seq<byte>)
    ensures Doubled(a + b) == Doubled(a) + Doubled(b)
  {
    if a == [] {
      assert a + b == b;
    } else {
      hide DoubledByte, Doubled;
      DoubledAppend(a[1..], b);
      DoubledCons(a);
      DoubledCons(a + b);
      assert (a + b)[0] == a[0] && (a + b)[1..] == a[1..] + b;
      Associative(DoubledByte(a[0]), Doubled(a[1..]), Doubled(b));
    }
  }

  lemma DoubledCons(a: seq<byte>)
    requires a != []
    ensures Doubled(a) == DoubledByte(a[0]) + Doubled(a[1..])
  {}

  lemma ByUnitFirst(s: seq<byte>, reversible: bool)
    requires s != []
    ensures var n := UnitLen(s);
            ByUnit(s, reversible) == if n == 0 then Hex(s[0]) + ByUnit(s[1..], reversible)
                                     else Shown(s[..n], reversible) + ByUnit(s[n..], reversible)
  {
    hide UnitLen, Hex, Shown;
  }

  lemma {:induction false} GapByUnit(s: seq<byte>, reversible: bool)
    ensures ByUnit(s, reversible) == HexAll(s[..GapLen(s)]) + ByUnit(s[GapLen(s)..], reversible)
  {
    var g := GapLen(s);
    if g > 0 {
      GapByUnit(s[1..], reversible);
      assert s[..g][1..] == s[1..][..g - 1] && s[g..] == s[1..][g - 1..];
      assert ByUnit(s, reversible) == Hex(s[0]) + (HexAll(s[..g][1..]) + ByUnit(s[g..], reversible));
    }
  }

  lemma {:induction false} RunByUnit(s: seq<byte>, reversible: bool)
    ensures var r := RunLen(s);
            ByUnit(s, reversible) == Shown(s[..r], reversible) + ByUnit(s[r..], reversible)
  {
    var n, r := UnitLen(s), RunLen(s);
    hide UnitLen, Doubled, Hex;
    if n > 0 {
      var t := s[n..];
      RunByUnit(t, reversible);
      assert r == n + RunLen(t);
      assert s[..r] == s[..n] + t[..r - n] && s[r..] == t[r - n..];
      DoubledAppend(s[..n], t[..r - n]);
      var rest := ByUnit(s[r..], reversible);
      assert ByUnit(s, reversible) == Shown(s[..n], reversible) + (Shown(t[..r - n], reversible) + rest);
    } else {
      ShownEmpty(reversible);
      assert s[..r] == [] && s[r..] == s;
    }
  }

  lemma ShownEmpty(reversible: bool)
    ensures Shown([], reversible) == []
  {}

  lemma {:induction false} EscapeIsByUnit(s: seq<byte>, i: nat, reversible: bool)
    requires i % 2 == 0
    ensures Joined(i, Split(s), reversible) == ByUnit(s, reversible)
    decreases |s|
  {
    hide UnitLen, RunLen, GapLen, HexAll, Doubled, ByUnit, Joined, Shown;
    var g := GapLen(s);
    GapByUnit(s, reversible);
    if g == |s| {
      assert s[..g] == s && s[g..] == [];
      JoinedOne(i, s, reversible);
      NothingByUnit(reversible);
    } else {
      var t := s[g..];
      var r := RunLen(t);
      assert r > 0;
      RunByUnit(t, reversible);
      EscapeIsByUnit(s[g + r..], i + 2, reversible);
      assert t[..r] == s[g..g + r] && t[r..] == s[g + r..];
      JoinedTwo(i, s[..g], s[g..g + r], Split(s[g + r..]), reversible);
    }
  }

  lemma NothingByUnit(reversible: bool)
    ensures ByUnit([], reversible) == []
  {}

  lemma JoinedOne(i: nat, a: seq<byte>, reversible: bool)
    requires i % 2 == 0
    ensures Joined(i, [a], reversible) == HexAll(a)
  {
    hide HexAll;
    assert Joined(i, [a], reversible) == HexAll(a) + Joined(i + 1, [], reversible);
  }

  lemma JoinedTwo(i: nat, a: seq<byte>, b: seq<byte>, parts: seq<seq<byte>>, reversible: bool)
    requires i % 2 == 0
    ensures Joined(i, [a, b] + parts, reversible) == HexAll(a) + (Shown(b, reversible) + Joined(i + 2, parts, reversible))
  {
    hide HexAll, Shown;
    var all := [a, b] + parts;
    assert all[1..] == [b] + parts && all[1..][1..] == parts;
    assert Joined(i, all, reversible) == HexAll(a) + Joined(i + 1, all[1..], reversible);
    assert Joined(i + 1, all[1..], reversible) == Shown(b, reversible) + Joined(i + 2, parts, reversible);
  }

  // ---- Every output is valid UTF-8 -----------------------------------------------------------

  /** A match is not affected by what follows it. */
  lemma UnitStable(u: seq<byte>, rest: seq<byte>)
    requires u != [] && UnitLen(u) == |u|
    ensures UnitLen(u + rest) == |u| && (u + rest)[..|u|] == u && (u + rest)[|u|..] == rest
  {}

  lemma UnitTake(s: seq<byte>)
    requires UnitLen(s) > 0
    ensures UnitLen(s[..UnitLen(s)]) == UnitLen(s)
  {}

  lemma ValidTail(a: seq<byte>)
    requires ValidUtf8(a) && a != []
    ensures UnitLen(a) > 0 && ValidUtf8(a[UnitLen(a)..])
  {
    hide UnitLen;
  }

  lemma Resplit(a: seq<byte>, n: nat, b: seq<byte>)
    requires n <= |a|
    ensures a + b == a[..n] + (a[n..] + b)
  {}

  lemma {:induction false} ValidAppend(a: seq<byte>, b: seq<byte>)
    requires ValidUtf8(a) && ValidUtf8(b)
    ensures ValidUtf8(a + b)
  {
    if a == [] {
      assert a + b == b;
    } else {
      hide UnitLen, ValidUtf8;
      ValidTail(a);
      var n := UnitLen(a);
      UnitTake(a);
      ValidAppend(a[n..], b);
      Resplit(a, n, b);
      ValidCons(a[..n], a[n..] + b);
    }
  }

  lemma ValidCons(u: seq<byte>, rest: seq<byte>)
    requires u != [] && UnitLen(u) == |u| && ValidUtf8(rest)
    ensures ValidUtf8(u + rest)
  {
    UnitStable(u, rest);
    hide UnitLen;
  }

  lemma {:induction false} PlainValid(s: seq<byte>)
    requires forall i | 0 <= i < |s| :: Plain(s[i])
    ensures ValidUtf8(s)
  {
    if s != [] { PlainValid(s[1..]); }
  }

  lemma UnitDoubled(u: seq<byte>)
    requires u != [] && UnitLen(u) == |u|
    ensures ValidUtf8(Doubled(u)) && ValidUtf8(u)
    ensures u[0] == BACKSLASH ==> u == [BACKSLASH]
    ensures u[0] != BACKSLASH ==> Doubled(u) == u && forall i | 0 <= i < |u| :: u[i] != BACKSLASH
  {
    assert u[|u|..] == [];
    if u[0] == BACKSLASH {
      assert u == [BACKSLASH];
      assert Doubled(u[1..]) == [];
      PlainValid(Doubled(u));
    } else {
      NothingDoubled(u);
    }
  }

  lemma {:induction false} NothingDoubled(s: seq<byte>)
    requires forall i | 0 <= i < |s| :: s[i] != BACKSLASH
    ensures Doubled(s) == s
  {
    if s != [] { NothingDoubled(s[1..]); }
  }

  /** One of the characters 0 to 9 and a to f, with this value. */
  predicate IsHexDigit(b: byte, n: nat) {
    (0x30 <= b <= 0x39 && n == b - 0x30) || (0x61 <= b <= 0x66 && n == b - 0x61 + 10)
  }

  /** A backslash, an x and the two hexadecimal digits of `b`. */
  predicate IsHex(s: seq<byte>, b: byte) {
    |s| == 4 && s[0] == 0x5c && s[1] == 0x78 && IsHexDigit(s[2], b / 16) && IsHexDigit(s[3], b % 16)
  }

  /** Escaping from the front: a byte that begins no match becomes a backslash, an x and its two lower-case
      hexadecimal digits; a backslash is doubled by the reversible escape only; any other match stays. */
  lemma EscapeSays(s: seq<byte>, reversible: bool)
    requires s != []
    ensures var n, out := UnitLen(s), EscapeStrict(s, reversible);
            if n == 0 then |out| >= 4 && IsHex(out[..4], s[0]) && out[4..] == EscapeStrict(s[1..], reversible)
            else if s[0] == 0x5c && reversible then n == 1 && out == [0x5c, 0x5c] + EscapeStrict(s[1..], reversible)
            else out == s[..n] + EscapeStrict(s[n..], reversible)
  {
    var n := UnitLen(s);
    EscapeIsByUnit(s, 0, reversible);
    ByUnitFirst(s, reversible);
    if n == 0 {
      EscapeIsByUnit(s[1..], 0, reversible);
      HexSays(s[0]);
      assert (Hex(s[0]) + EscapeStrict(s[1..], reversible))[..4] == Hex(s[0]);
    } else {
      EscapeIsByUnit(s[n..], 0, reversible);
      UnitTake(s);
      UnitDoubled(s[..n]);
      if s[0] == BACKSLASH { assert s[..1] == [BACKSLASH] && Doubled([BACKSLASH]) == [BACKSLASH, BACKSLASH]; }
    }
    hide UnitLen, Hex, ByUnit, EscapeStrict, Doubled;
  }

  lemma HexSays(b: byte)
    ensures IsHex(Hex(b), b)
  {}

  /** Whatever goes in, a valid UTF-8 string comes out. */
  lemma {:induction false} OutputIsValid(s: seq<byte>, reversible: bool)
    ensures ValidUtf8(EscapeStrict(s, reversible))
  {
    EscapeIsByUnit(s, 0, reversible);
    ByUnitValid(s, reversible);
  }

  lemma {:induction false} ByUnitValid(s: seq<byte>, reversible: bool)
    ensures ValidUtf8(ByUnit(s, reversible))
  {
    if s != [] {
      var n := UnitLen(s);
      if n == 0 {
        ByUnitValid(s[1..], reversible);
        PlainValid(Hex(s[0]));
        ValidAppend(Hex(s[0]), ByUnit(s[1..], reversible));
      } else {
        ByUnitValid(s[n..], reversible);
        UnitTake(s);
        UnitDoubled(s[..n]);
        ValidAppend(Shown(s[..n], reversible), ByUnit(s[n..], reversible));
      }
    }
  }

  /** A valid string is left alone by safe_str. */
  lemma {:induction false} ValidUnchanged(s: seq<byte>)
    requires ValidUtf8(s)
    ensures ByUnit(s, false) == s
  {
    if s != [] {
      ValidUnchanged(s[UnitLen(s)..]);
      assert s == s[..UnitLen(s)] + s[UnitLen(s)..];
    }
  }

  /** A string is safe exactly if it is valid; hence safe_str is idempotent and yields safe strings. */
  lemma SafeIsValid(s: seq<byte>)
    ensures IsSafeStr(s) <==> ValidUtf8(s)
    ensures IsSafeStr(SafeStr(s)) && SafeStr(SafeStr(s)) == SafeStr(s)
  {
    OutputIsValid(s, false);
    if ValidUtf8(s) { EscapeIsByUnit(s, 0, false); ValidUnchanged(s); }
    var t := SafeStr(s);
    EscapeIsByUnit(t, 0, false);
    ValidUnchanged(t);
  }

  // ---- Unescaping ----------------------------------------------------------------------------

  function HexValue(b: byte): Option<nat> {
    if Between(b, 0x30, 0x39) then Some(b - 0x30)
    else if Between(b, 0x61, 0x66) then Some(b - 0x61 + 10)
    else if Between(b, 0x41, 0x46) then Some(b - 0x41 + 10)
    else None
  }

  predicate IsOctal(b: byte) { Between(b, 0x30, 0x37) }

  /** The single-character escapes of Python's string_escape codec. */
  function SimpleEscape(b: byte): Option<byte> {
    if b == BACKSLASH || b == 0x27 || b == 0x22 then Some(b)
    else if b == 0x62 then Some(0x08)
    else if b == 0x66 then Some(0x0c)
    else if b == 0x74 then Some(0x09)
    else if b == 0x6e then Some(0x0a)
    else if b == 0x72 then Some(0x0d)
    else if b == 0x76 then Some(0x0b)
    else if b == 0x61 then Some(0x07)
    else None
  }

  /** The number of octal digits, at most three, at the front. */
  function OctalLen(s: seq<byte>): (n: nat)
    ensures n <= |s| && n <= 3
  {
    if s == [] || !IsOctal(s[0]) then 0
    else if |s| == 1 || !IsOctal(s[1]) then 1
    else if |s| == 2 || !IsOctal(s[2]) then 2
    else 3
  }

  function OctalDigit(b: byte): nat
    requires IsOctal(b)
  {
    b - 0x30
  }

  function OctalValue(s: seq<byte>): nat
    requires forall i | 0 <= i < |s| :: IsOctal(s[i])
  {
    if s == [] then 0 else 8 * OctalValue(s[..|s| - 1]) + OctalDigit(s[|s| - 1])
  }

  function Prepend(front: seq<byte>, rest: Option<seq<byte>>): Option<seq<byte>> {
    match rest
    case Some(r) => Some(front + r)
    case None => None
  }

  /** unescape_str: decoding with string_escape; None where Python raises ValueError. */
  function Unescape(s: seq<byte>): Option<seq<byte>>
    decreases |s|
  {
    if s == [] then Some([])
    else if s[0] != BACKSLASH then Prepend([s[0]], Unescape(s[1..]))
    else if |s| == 1 then None
    else
      var b := s[1];
      if b == 0x0a then Unescape(s[2..])
      else if SimpleEscape(b).Some? then Prepend([SimpleEscape(b).value], Unescape(s[2..]))
      else if IsOctal(b) then
        var n := OctalLen(s[1..]);
        Prepend([OctalValue(s[1..][..n]) % 256], Unescape(s[1 + n..]))
      else if b == 0x78 then
        if |s| >= 4 && HexValue(s[2]).Some? && HexValue(s[3]).Some?
        then Prepend([HexValue(s[2]).value * 16 + HexValue(s[3]).value], Unescape(s[4..]))
        else None
      else Prepend([BACKSLASH], Unescape(s[1..]))
  }

  lemma {:induction false} UnescapePlain(u: seq<byte>, rest: seq<byte>)
    requires forall i | 0 <= i < |u| :: u[i] != BACKSLASH
    ensures Unescape(u + rest) == Prepend(u, Unescape(rest))
  {
    if u == [] {
      assert u + rest == rest;
      assert forall r: seq<byte> :: [] + r == r;
    } else {
      UnescapePlain(u[1..], rest);
      assert (u + rest)[1..] == u[1..] + rest;
      assert forall r: seq<byte> :: [u[0]] + (u[1..] + r) == u + r;
    }
  }

  lemma HexDecodes(b: byte)
    ensures HexValue(HexDigit(b / 16)) == Some(b / 16) && HexValue(HexDigit(b % 16)) == Some(b % 16)
  {}

  /** Decoding a reversible escape gives the original back, for every byte string. */
  lemma UnescapeEscape(s: seq<byte>)
    ensures Unescape(EscapeStrict(s, true)) == Some(s)
  {
    EscapeIsByUnit(s, 0, true);
    UnescapeByUnit(s);
  }

  lemma {:induction false} UnescapeByUnit(s: seq<byte>)
    ensures Unescape(ByUnit(s, true)) == Some(s)
  {
    if s != [] {
      hide Unescape, Hex, UnitLen, Doubled, ByUnit;
      var n := UnitLen(s);
      ByUnitFirst(s, true);
      if n == 0 {
        UnescapeByUnit(s[1..]);
        UnescapeHex(s[0], ByUnit(s[1..], true));
        assert s == [s[0]] + s[1..];
      } else {
        UnescapeByUnit(s[n..]);
        UnitTake(s);
        UnescapeUnit(s[..n], ByUnit(s[n..], true));
        assert s == s[..n] + s[n..];
      }
    }
  }

  lemma UnescapeHex(b: byte, rest: seq<byte>)
    ensures Unescape(Hex(b) + rest) == Prepend([b], Unescape(rest))
  {
    hide HexDigit, Hex, HexValue, Unescape;
    HexDecodes(b);
    HexBytes(b);
    var e := Hex(b) + rest;
    assert e[0] == BACKSLASH && e[1] == 0x78 && e[2] == HexDigit(b / 16) && e[3] == HexDigit(b % 16) && e[4..] == rest;
    UnescapeX(e);
  }

  lemma UnescapeX(e: seq<byte>)
    requires |e| >= 4 && e[0] == BACKSLASH && e[1] == 0x78 && HexValue(e[2]).Some? && HexValue(e[3]).Some?
    ensures Unescape(e) == Prepend([HexValue(e[2]).value * 16 + HexValue(e[3]).value], Unescape(e[4..]))
  {
    hide HexValue, OctalValue, OctalLen;
  }

  lemma HexBytes(b: byte)
    ensures Hex(b) == [BACKSLASH, 0x78, HexDigit(b / 16), HexDigit(b % 16)]
  {}

  lemma UnescapeUnit(u: seq<byte>, rest: seq<byte>)
    requires u != [] && UnitLen(u) == |u|
    ensures Unescape(Doubled(u) + rest) == Prepend(u, Unescape(rest))
  {
    hide UnitLen, ValidUtf8;
    UnitDoubled(u);
    if u[0] == BACKSLASH {
      assert Doubled(u) == [BACKSLASH, BACKSLASH] by { assert Doubled(u[1..]) == []; }
      assert ([BACKSLASH, BACKSLASH] + rest)[2..] == rest;
    } else {
      UnescapePlain(u, rest);
    }
  }

  /** Reversible escaping never merges two byte strings. */
  lemma ReversibleIsInjective(s: seq<byte>, t: seq<byte>)
    requires EscapeStrict(s, true) == EscapeStrict(t, true)
    ensures s == t
  {
    UnescapeEscape(s);
    UnescapeEscape(t);
  }

  // ---- When safe_str merges ------------------------------------------------------------------

  /** What safe_str writes for byte `b` stands at `i`. */
  predicate Shows(s: seq<byte>, i: nat, b: byte) { i + 4 <= |s| && s[i..i + 4] == Hex(b) }

  /** Exactly when no other string has the same safe_str: the string is valid, and nowhere in it
      stands the escape of a byte that would be escaped. */
  lemma SafeStrMergesExactly(s: seq<byte>)
    ensures (forall t :: SafeStr(t) == SafeStr(s) ==> t == s)
            <==> ValidUtf8(s) && forall i: nat, b: byte :: Shows(s, i, b) ==> Plain(b)
  {
    hide Plain, Hex;
    if !ValidUtf8(s) {
      SafeIsValid(s);
      OutputIsValid(s, false);
      var t := SafeStr(s);
      assert SafeStr(t) == SafeStr(s) && t != s;
    } else if i: nat, b: byte :| Shows(s, i, b) && !Plain(b) {
      var t := PutBack(s, i, b);
      assert SafeStr(t) == SafeStr(s) && t != s;
    } else {
      forall t | SafeStr(t) == SafeStr(s) ensures t == s { Unmerged(s, t); }
    }
  }

  lemma Unmerged(s: seq<byte>, t: seq<byte>)
    requires ValidUtf8(s) && (forall i: nat, b: byte :: Shows(s, i, b) ==> Plain(b))
    requires SafeStr(t) == SafeStr(s)
    ensures t == s
  {
    hide Plain, Hex;
    EscapeIsByUnit(s, 0, false);
    EscapeIsByUnit(t, 0, false);
    ValidUnchanged(s);
    if ValidUtf8(t) {
      ValidUnchanged(t);
    } else {
      var i := GapShows(t);
      assert Shows(s, i, t[i]);
    }
  }

  /** A string that is not valid has a byte that is shown in its place. */
  lemma {:induction false} GapShows(t: seq<byte>) returns (i: nat)
    requires !ValidUtf8(t)
    ensures i < |t| && !Plain(t[i]) && Shows(ByUnit(t, false), i, t[i])
  {
    hide Hex;
    var n := UnitLen(t);
    if n == 0 {
      i := 0;
      assert |Hex(t[0])| == 4 by { HexIsFour(t[0]); }
      assert ByUnit(t, false)[0..4] == Hex(t[0]);
    } else {
      var j := GapShows(t[n..]);
      i := n + j;
      assert ByUnit(t, false) == t[..n] + ByUnit(t[n..], false);
      assert ByUnit(t, false)[i..i + 4] == ByUnit(t[n..], false)[j..j + 4];
    }
  }

  lemma HexIsFour(b: byte)
    ensures |Hex(b)| == 4 && (forall i | 0 <= i < 4 :: Plain(Hex(b)[i])) && Hex(b)[0] == BACKSLASH
  {}

  /** Putting the byte back in place of its escape gives another string with the same safe_str. */
  lemma PutBack(s: seq<byte>, i: nat, b: byte) returns (t: seq<byte>)
    requires ValidUtf8(s) && Shows(s, i, b) && !Plain(b)
    ensures t != s && SafeStr(t) == SafeStr(s)
  {
    hide Hex, UnitLen, ByUnit, ValidUtf8, Plain;
    var front, rest := s[..i], s[i + 4..];
    t := front + ([b] + rest);
    SplitAtEscape(s, i, b);
    SafeAround(front, b, rest);
    EscapeIsByUnit(s, 0, false);
    ValidUnchanged(s);
  }

  /** What stands around an escape in a valid string is valid. */
  lemma SplitAtEscape(s: seq<byte>, i: nat, b: byte)
    requires ValidUtf8(s) && Shows(s, i, b)
    ensures ValidUtf8(s[..i]) && ValidUtf8(s[i + 4..]) && s == s[..i] + (Hex(b) + s[i + 4..])
  {
    hide Hex, ValidUtf8;
    HexIsFour(b);
    assert s[i] == s[i..i + 4][0];
    ValidSplits(s, i);
    assert s[i..] == Hex(b) + s[i + 4..];
    ValidAfterPlain(Hex(b), s[i + 4..]);
  }

  lemma SafeAround(front: seq<byte>, b: byte, rest: seq<byte>)
    requires ValidUtf8(front) && ValidUtf8(rest) && !Plain(b)
    ensures SafeStr(front + ([b] + rest)) == front + (Hex(b) + rest)
  {
    hide Hex, UnitLen, ByUnit, ValidUtf8, Plain;
    EscapeIsByUnit(front + ([b] + rest), 0, false);
    ValidKept(front, [b] + rest);
    LoneByte(b, rest);
    ValidUnchanged(rest);
  }

  /** A character of ASCII is a boundary between matches. */
  lemma {:induction false} ValidSplits(s: seq<byte>, i: nat)
    requires ValidUtf8(s) && i < |s| && s[i] < 0x80
    ensures ValidUtf8(s[..i]) && ValidUtf8(s[i..])
  {
    if i > 0 {
      var n := UnitLen(s);
      UnitBounds(s, i);
      ValidSplits(s[n..], i - n);
      assert s[n..][..i - n] == s[..i][n..] && s[n..][i - n..] == s[i..];
      UnitTake(s);
      assert s[..i] == s[..n] + s[..i][n..];
      ValidCons(s[..n], s[..i][n..]);
    } else {
      assert s[..i] == [] && s[i..] == s;
    }
  }

  lemma UnitBounds(s: seq<byte>, i: nat)
    requires UnitLen(s) > 0 && 0 < i < |s| && s[i] < 0x80
    ensures UnitLen(s) <= i
  {}

  lemma {:induction false} ValidAfterPlain(a: seq<byte>, rest: seq<byte>)
    requires ValidUtf8(a + rest) && forall i | 0 <= i < |a| :: Plain(a[i])
    ensures ValidUtf8(rest)
  {
    if a == [] {
      assert a + rest == rest;
    } else {
      assert (a + rest)[0] == a[0] && (a + rest)[1..] == a[1..] + rest;
      ValidAfterPlain(a[1..], rest);
    }
  }

  /** A byte that is no match by itself is none before a match either. */
  lemma LoneByte(b: byte, rest: seq<byte>)
    requires !Plain(b) && ValidUtf8(rest)
    ensures ByUnit([b] + rest, false) == Hex(b) + ByUnit(rest, false)
  {
    hide Hex;
    assert ([b] + rest)[1..] == rest;
    if rest != [] { assert UnitLen(rest) > 0 && !Cont(rest[0]); }
  }

  lemma {:induction false} ValidKept(a: seq<byte>, t: seq<byte>)
    requires ValidUtf8(a)
    ensures ByUnit(a + t, false) == a + ByUnit(t, false)
  {
    if a == [] {
      assert a + t == t;
    } else {
      hide UnitLen, Hex, ByUnit, ValidUtf8;
      ValidTail(a);
      var n := UnitLen(a);
      UnitTake(a);
      ValidKept(a[n..], t);
      UnitFirst(a[..n], a[n..] + t);
      Resplit(a, n, t);
      Resplit(a, n, ByUnit(t, false));
    }
  }

  lemma UnitFirst(u: seq<byte>, rest: seq<byte>)
    requires u != [] && UnitLen(u) == |u|
    ensures ByUnit(u + rest, false) == u + ByUnit(rest, false)
  {
    UnitStable(u, rest);
    hide UnitLen, Hex;
  }

  /** For example, a NUL byte and the four characters that stand for it. */
  lemma SafeStrMerges()
    ensures [0] != [BACKSLASH, 0x78, 0x30, 0x30] && SafeStr([0]) == SafeStr([BACKSLASH, 0x78, 0x30, 0x30])
  {
    var z: seq<byte> := [0];
    var e: seq<byte> := [BACKSLASH, 0x78, 0x30, 0x30];
    EscapeIsByUnit(z, 0, false);
    assert z[1..] == [];
    assert ByUnit(z, false) == e + [];
    PlainValid(e);
    EscapeIsByUnit(e, 0, false);
    ValidUnchanged(e);
  }
}
