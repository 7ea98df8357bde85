/** The string operations the classification engine is built from; how splitting undoes joining. */
module Text {
  import opened Prelude

  const REL: string := "REL TO "

  // ---- split and join on one character -------------------------------------------------------

  predicate Lacks(s: string, c: char) {
    forall i | 0 <= i < |s| :: s[i] != c
  }

  /** s.split(c) */
  function SplitAt(s: string, c: char): (parts: seq<string>)
    ensures |parts| >= 1
  {
    if s == [] then [""]
    else
      PutBefore(s[0], c, SplitAt(s[1..], c))
  }

  /** The parts of a text, given its first character and the parts of the remainder. */
  function PutBefore(x: char, c: char, rest: seq<string>): (parts: seq<string>)
    requires |rest| >= 1
    ensures |parts| >= 1
  {
    if x == c then [""] + rest else [[x] + rest[0]] + rest[1..]
  }

  lemma PutBeforeAppend(x: char, c: char, a: seq<string>, b: seq<string>)
    requires |a| >= 1
    ensures PutBefore(x, c, a + b) == PutBefore(x, c, a) + b
  {
    assert (a + b)[0] == a[0] && (a + b)[1..] == a[1..] + b;
  }

  /** c.join(parts) */
  function JoinWith(parts: seq<string>, c: char): string {
    if parts == [] then ""
    else if |parts| == 1 then parts[0]
    else parts[0] + [c] + JoinWith(parts[1..], c)
  }

  lemma {:induction false} SplitLacking(s: string, c: char)
    requires Lacks(s, c)
    ensures SplitAt(s, c) == [s]
  {
    if s != [] {
      SplitLacking(s[1..], c);
      assert s == [s[0]] + s[1..];
    }
  }

  lemma {:induction false} SplitAppend(a: string, c: char, b: string)
    ensures SplitAt(a + [c] + b, c) == SplitAt(a, c) + SplitAt(b, c)
  {
    var s := a + [c] + b;
    if a == [] {
      assert s[1..] == b;
    } else {
      SplitAppend(a[1..], c, b);
      assert s[1..] == a[1..] + [c] + b;
      PutBeforeAppend(a[0], c, SplitAt(a[1..], c), SplitAt(b, c));
    }
  }

  /** Splitting undoes joining when no part contains the separator. */
  lemma {:induction false} SplitJoin(parts: seq<string>, c: char)
    requires parts != [] && forall i | 0 <= i < |parts| :: Lacks(parts[i], c)
    ensures SplitAt(JoinWith(parts, c), c) == parts
  {
    SplitLacking(parts[0], c);
    if |parts| > 1 {
      SplitJoin(parts[1..], c);
      SplitAppend(parts[0], c, JoinWith(parts[1..], c));
    }
  }

  lemma {:induction false} JoinLacks(parts: seq<string>, c: char, d: char)
    requires c != d && forall i | 0 <= i < |parts| :: Lacks(parts[i], d)
    ensures Lacks(JoinWith(parts, c), d)
  {
    if |parts| > 1 { JoinLacks(parts[1..], c, d); }
  }

  lemma {:induction false} JoinAppend(a: seq<string>, b: seq<string>, c: char)
    requires a != [] && b != []
    ensures JoinWith(a + b, c) == JoinWith(a, c) + [c] + JoinWith(b, c)
  {
    if |a| == 1 {
      assert (a + b)[1..] == b;
    } else {
      JoinAppend(a[1..], b, c);
      assert (a + b)[1..] == a[1..] + b;
    }
  }

  // ---- split and join on "//" ----------------------------------------------------------------

  /** s.split("//") */
  function SplitDouble(s: string): (parts: seq<string>)
    ensures |parts| >= 1
  {
    if |s| < 2 then [s]
    else if s[0] == '/' && s[1] == '/' then [""] + SplitDouble(s[2..])
    else
      var rest := SplitDouble(s[1..]);
      [[s[0]] + rest[0]] + rest[1..]
  }

  function JoinDouble(parts: seq<string>): string {
    if parts == [] then ""
    else if |parts| == 1 then parts[0]
    else parts[0] + "//" + JoinDouble(parts[1..])
  }

  /** A section: not empty, no "//" in it, no slash at either end. */
  predicate IsSection(s: string) {
    && s != [] && s[0] != '/' && s[|s| - 1] != '/'
    && forall i | 0 <= i < |s| - 1 :: !(s[i] == '/' && s[i + 1] == '/')
  }

  lemma {:induction false} SplitSection(s: string)
    requires forall i | 0 <= i < |s| - 1 :: !(s[i] == '/' && s[i + 1] == '/')
    ensures SplitDouble(s) == [s]
  {
    if |s| >= 2 {
      SplitSection(s[1..]);
      assert s == [s[0]] + s[1..];
    }
  }

  lemma {:induction false} SplitDoubleAppend(a: string, b: string)
    requires forall i | 0 <= i < |a| - 1 :: !(a[i] == '/' && a[i + 1] == '/')
    requires a != [] ==> a[|a| - 1] != '/'
    ensures SplitDouble(a + "//" + b) == [a] + SplitDouble(b)
  {
    var s := a + "//" + b;
    if a == [] {
      assert s[2..] == b;
    } else {
      SplitDoubleAppend(a[1..], b);
      assert s[1..] == a[1..] + "//" + b;
      assert a == [a[0]] + a[1..];
      if |a| == 1 { assert s[0] != '/'; }
      assert SplitDouble(s) == [[s[0]] + ([a[1..]] + SplitDouble(b))[0]] + ([a[1..]] + SplitDouble(b))[1..];
    }
  }

  /** Splitting at double slashes undoes joining sections. */
  lemma {:induction false} SplitJoinDouble(parts: seq<string>)
    requires parts != [] && forall i | 0 <= i < |parts| :: IsSection(parts[i])
    ensures SplitDouble(JoinDouble(parts)) == parts
  {
    if |parts| == 1 {
      SplitSection(parts[0]);
    } else {
      SplitJoinDouble(parts[1..]);
      SplitDoubleAppend(parts[0], JoinDouble(parts[1..]));
    }
  }

  /** Parts of sections, as a set: what splitting the whole text at single slashes yields. */
  function Pieces(s: string): set<string> {
    set p | p in SplitAt(s, '/')
  }

  function AllPieces(parts: seq<string>): set<string> {
    if parts == [] then {} else Pieces(parts[0]) + AllPieces(parts[1..])
  }

  lemma {:induction false} PiecesOfJoined(parts: seq<string>)
    requires parts != []
    ensures forall p | p != "" :: p in Pieces(JoinDouble(parts)) <==> p in AllPieces(parts)
  {
    if |parts| > 1 {
      var a, b := parts[0], JoinDouble(parts[1..]);
      PiecesOfJoined(parts[1..]);
      assert a + "//" + b == a + ['/'] + ([] + ['/'] + b);
      SplitAppend(a, '/', [] + ['/'] + b);
      SplitAppend([], '/', b);
      assert SplitAt([], '/') == [""];
      assert SplitAt(a + "//" + b, '/') == SplitAt(a, '/') + ([""] + SplitAt(b, '/'));
    } else {
      assert AllPieces(parts[1..]) == {};
    }
  }

  // ---- strip ---------------------------------------------------------------------------------

  predicate IsSpace(c: char) {
    c == ' ' || c == '\t' || c == '\n' || c == '\r' || c == 11 as char || c == 12 as char
  }

  function Strip(s: string): string {
    if s == [] then s
    else if IsSpace(s[0]) then Strip(s[1..])
    else if IsSpace(s[|s| - 1]) then Strip(s[..|s| - 1])
    else s
  }

  predicate Trimmed(s: string) {
    s != [] && !IsSpace(s[0]) && !IsSpace(s[|s| - 1])
  }

  lemma StripTrimmed(s: string)
    requires Trimmed(s)
    ensures Strip(s) == s && Strip(" " + s) == s
  {
    assert (" " + s)[1..] == s;
  }

  // ---- replace("REL TO ", "") ----------------------------------------------------------------

  function RemoveRel(s: string): string {
    if |s| >= |REL| && s[..|REL|] == REL then RemoveRel(s[|REL|..])
    else if s == [] then []
    else [s[0]] + RemoveRel(s[1..])
  }

  /** The marker stands at position i. */
  predicate RelAt(s: string, i: nat) {
    i + |REL| <= |s| && s[i..i + |REL|] == REL
  }

  predicate RelFree(s: string) {
    forall i | 0 <= i <= |s| :: !RelAt(s, i)
  }

  lemma RelFreeTail(s: string)
    requires RelFree(s) && s != []
    ensures RelFree(s[1..])
  {
    forall i | 0 <= i <= |s[1..]| ensures !RelAt(s[1..], i) {
      if RelAt(s[1..], i) {
        assert s[1..][i..i + |REL|] == s[i + 1..i + 1 + |REL|];
        assert RelAt(s, i + 1);
      }
    }
  }

  lemma {:induction false} RemoveNothing(s: string)
    requires RelFree(s)
    ensures RemoveRel(s) == s
  {
    assert !RelAt(s, 0);
    if s != [] {
      RelFreeTail(s);
      RemoveNothing(s[1..]);
    }
  }

  lemma RelAtLacks(s: string, i: nat, k: nat)
    requires RelAt(s, i) && i <= k < i + |REL|
    ensures s[k] != '/' && s[k] != ','
  {
    assert s[k] == s[i..i + |REL|][k - i] == REL[k - i];
  }

  lemma RelAtStarts(s: string)
    requires RelAt(s, 0)
    ensures s[0] == 'R'
  {
    assert s[0] == s[0..0 + |REL|][0] == REL[0];
  }

  /** A slash or comma never lies within the marker. */
  lemma RelFreeAround(a: string, c: char, b: string)
    requires RelFree(a) && RelFree(b) && (c == '/' || c == ',')
    ensures RelFree(a + [c] + b)
  {
    var s := a + [c] + b;
    forall i | 0 <= i <= |s| ensures !RelAt(s, i) {
      if RelAt(s, i) {
        if i + |REL| <= |a| {
          assert s[i..i + |REL|] == a[i..i + |REL|];
          assert RelAt(a, i);
        } else if i > |a| {
          assert s[i..i + |REL|] == b[i - |a| - 1..i - |a| - 1 + |REL|];
          assert RelAt(b, i - |a| - 1);
        } else {
          RelAtLacks(s, i, |a|);
          assert false;
        }
      }
    }
  }

  lemma RelFreeSpaced(a: string)
    requires RelFree(a)
    ensures RelFree(" " + a)
  {
    var s := " " + a;
    forall i | 0 <= i <= |s| ensures !RelAt(s, i) {
      if RelAt(s, i) {
        if i == 0 {
          RelAtStarts(s);
          assert false;
        } else {
          assert s[i..i + |REL|] == a[i - 1..i - 1 + |REL|];
          assert RelAt(a, i - 1);
        }
      }
    }
  }

  lemma {:induction false} RelFreeJoin(parts: seq<string>, c: char)
    requires (c == '/' || c == ',') && forall i | 0 <= i < |parts| :: RelFree(parts[i])
    ensures RelFree(JoinWith(parts, c))
  {
    if |parts| > 1 {
      RelFreeJoin(parts[1..], c);
      RelFreeAround(parts[0], c, JoinWith(parts[1..], c));
    }
  }

  /** The marker is removed where it stands, behind a slash or at the front. */
  lemma {:induction false} RemoveOne(a: string, b: string)
    requires RelFree(a) && RelFree(b) && (a == [] || a[|a| - 1] == '/')
    ensures RemoveRel(a + REL + b) == a + b
  {
    var s := a + REL + b;
    if a == [] {
      assert s[..|REL|] == REL && s[|REL|..] == b;
      RemoveNothing(b);
      assert a + b == b;
    } else {
      NotInFront(a, b);
      RelFreeTail(a);
      RemoveOne(a[1..], b);
      Behind(a, b);
      hide RelFree;
      RemoveFirst(s);
    }
  }

  lemma RemoveFirst(s: string)
    requires s != [] && !(|s| >= |REL| && s[..|REL|] == REL)
    ensures RemoveRel(s) == [s[0]] + RemoveRel(s[1..])
  {}

  lemma Behind(a: string, b: string)
    requires a != []
    ensures var s := a + REL + b; s[0] == a[0] && s[1..] == a[1..] + REL + b && a + b == [a[0]] + (a[1..] + b)
  {}

  lemma NotInFront(a: string, b: string)
    requires RelFree(a) && a != [] && a[|a| - 1] == '/'
    ensures (a + REL + b)[..|REL|] != REL
  {
    var s := a + REL + b;
    if |a| < |REL| {
      assert s[..|REL|][|a| - 1] == '/';
    } else {
      assert s[..|REL|] == a[0..0 + |REL|];
      assert !RelAt(a, 0);
    }
  }

  // ---- upper ---------------------------------------------------------------------------------

  function UpperChar(c: char): char {
    if 'a' <= c <= 'z' then (c as int - 32) as char else c
  }

  function Upper(s: string): string {
    seq(|s|, i requires 0 <= i < |s| => UpperChar(s[i]))
  }

  predicate IsUpper(s: string) {
    forall i | 0 <= i < |s| :: !('a' <= s[i] <= 'z')
  }

  lemma UpperUpper(s: string)
    requires IsUpper(s)
    ensures Upper(s) == s
  {}

  lemma {:induction false} JoinUpper(parts: seq<string>, c: char)
    requires !('a' <= c <= 'z') && forall i | 0 <= i < |parts| :: IsUpper(parts[i])
    ensures IsUpper(JoinWith(parts, c))
  {
    if |parts| > 1 { JoinUpper(parts[1..], c); }
  }

  lemma {:induction false} JoinDoubleUpper(parts: seq<string>)
    requires forall i | 0 <= i < |parts| :: IsUpper(parts[i])
    ensures IsUpper(JoinDouble(parts))
  {
    if |parts| > 1 { JoinDoubleUpper(parts[1..]); }
  }
}
