/** How the sections of a printed marking come apart again. */
module MarkingsText {
  import opened Prelude
  import opened Text
  import opened Sorting
  import opened Markings

  predicate GoodNames(names: seq<string>) {
    forall i | 0 <= i < |names| :: GoodName(names[i])
  }

  // ---- Sections of plain names ---------------------------------------------------------------

  /** Names and "REL TO" lists alike can stand between slashes. */
  predicate IsToken(s: string) {
    s != [] && Lacks(s, '/') && IsUpper(s)
  }

  predicate Tokens(ts: seq<string>) {
    forall i | 0 <= i < |ts| :: IsToken(ts[i])
  }

  lemma {:induction false} TokensJoin(ts: seq<string>)
    requires ts != [] && Tokens(ts)
    ensures IsSection(JoinWith(ts, '/')) && IsUpper(JoinWith(ts, '/'))
    ensures Pieces(JoinWith(ts, '/')) == Set(ts)
  {
    SplitJoin(ts, '/');
    JoinUpper(ts, '/');
    TokensSection(ts);
  }

  lemma {:induction false} TokensSection(ts: seq<string>)
    requires ts != [] && Tokens(ts)
    ensures IsSection(JoinWith(ts, '/')) && JoinWith(ts, '/')[0] == ts[0][0]
  {
    if |ts| > 1 {
      TokensSection(ts[1..]);
      var a, b := ts[0], JoinWith(ts[1..], '/');
      var s := a + ['/'] + b;
      assert s == JoinWith(ts, '/');
      forall i | 0 <= i < |s| - 1 ensures !(s[i] == '/' && s[i + 1] == '/') {
        if i < |a| { assert s[i] == a[i]; }
        else if i > |a| { assert s[i] == b[i - |a| - 1] && s[i + 1] == b[i - |a|]; }
        else { assert s[i + 1] == b[0]; }
      }
    }
  }

  lemma {:induction false} GoodJoin(names: seq<string>)
    requires names != [] && GoodNames(names)
    ensures var s := JoinWith(names, '/');
            Trimmed(s) && s[0] == names[0][0] && Lacks(s, ',') && RelFree(s) && SplitAt(s, '/') == names
  {
    SplitJoin(names, '/');
    JoinLacks(names, '/', ',');
    RelFreeJoin(names, '/');
    GoodTrimmed(names);
  }

  lemma {:induction false} GoodTrimmed(names: seq<string>)
    requires names != [] && GoodNames(names)
    ensures var s := JoinWith(names, '/'); Trimmed(s) && s[0] == names[0][0]
  {
    if |names| > 1 { GoodTrimmed(names[1..]); }
  }

  lemma PlainSection(names: seq<string>)
    requires names != [] && GoodNames(names)
    ensures GroupPieces(JoinWith(names, '/')) == Set(names)
  {
    GoodJoin(names);
    var s := JoinWith(names, '/');
    RemoveNothing(s);
    SplitLacking(s, ',');
    StripTrimmed(s);
    assert SplitAt(RemoveRel(s), ',') == [s];
    assert s in SplitAt(RemoveRel(s), ',');
  }

  // ---- Lists behind "REL TO" -----------------------------------------------------------------

  /** Joining commutes with cutting one part in two. */
  lemma {:induction false} JoinInside(pre: seq<string>, a: string, m: string, b: string, post: seq<string>)
    ensures JoinWith(pre + [a + m + b] + post, '/') == JoinWith(pre + [a], '/') + m + JoinWith([b] + post, '/')
  {
    var whole := pre + [a + m + b] + post;
    if pre == [] {
      assert whole[1..] == post && ([b] + post)[1..] == post;
      if post == [] { assert whole == [a + m + b]; }
    } else {
      JoinInside(pre[1..], a, m, b, post);
      assert whole[1..] == pre[1..] + [a + m + b] + post;
      assert (pre + [a])[1..] == pre[1..] + [a];
    }
  }

  function Texts(lists: seq<seq<string>>): seq<string> {
    seq(|lists|, i requires 0 <= i < |lists| => JoinWith(lists[i], '/'))
  }

  /** The names between the commas, with what stands before and behind them between slashes. */
  function Spread(pre: seq<string>, names: seq<string>, post: seq<string>): (lists: seq<seq<string>>)
    requires names != []
    ensures lists != []
    decreases names
  {
    if |names| == 1 then [pre + names + post]
    else [pre + [names[0]]] + Spread([], names[1..], post)
  }

  predicate In(p: string, lists: seq<seq<string>>) {
    exists i | 0 <= i < |lists| :: p in lists[i]
  }

  lemma {:induction false} SpreadSame(pre: seq<string>, names: seq<string>, post: seq<string>, p: string)
    requires names != []
    ensures In(p, Spread(pre, names, post)) <==> p in pre + names + post
    decreases names
  {
    var lists := Spread(pre, names, post);
    if |names| == 1 {
      assert In(p, lists) <==> p in lists[0];
    } else {
      SpreadSame([], names[1..], post, p);
      var rest := Spread([], names[1..], post);
      assert In(p, lists) <==> p in lists[0] || In(p, rest) by {
        if In(p, rest) {
          var i :| 0 <= i < |rest| && p in rest[i];
          assert p in lists[i + 1];
        }
      }
      assert names == [names[0]] + names[1..];
    }
  }

  lemma {:induction false} SpreadGood(pre: seq<string>, names: seq<string>, post: seq<string>)
    requires names != [] && GoodNames(pre) && GoodNames(names) && GoodNames(post)
    ensures forall i | 0 <= i < |Spread(pre, names, post)| ::
              Spread(pre, names, post)[i] != [] && GoodNames(Spread(pre, names, post)[i])
    decreases names
  {
    if |names| > 1 { SpreadGood([], names[1..], post); }
  }

  lemma {:induction false} SpreadText(pre: seq<string>, names: seq<string>, post: seq<string>)
    requires names != []
    ensures JoinWith(pre + [JoinComma(names)] + post, '/') == JoinComma(Texts(Spread(pre, names, post)))
    decreases names
  {
    var lists := Spread(pre, names, post);
    if |names| == 1 {
      assert Texts(lists) == [JoinWith(pre + names + post, '/')];
      assert pre + [JoinComma(names)] + post == pre + names + post;
    } else {
      var rest := Spread([], names[1..], post);
      SpreadText([], names[1..], post);
      JoinInside(pre, names[0], ", ", JoinComma(names[1..]), post);
      assert Texts(lists) == [JoinWith(pre + [names[0]], '/')] + Texts(rest);
      assert [] + [JoinComma(names[1..])] + post == [JoinComma(names[1..])] + post;
    }
  }

  function Spaced(xs: seq<string>): seq<string>
    requires xs != []
  {
    seq(|xs|, i requires 0 <= i < |xs| => if i == 0 then xs[0] else " " + xs[i])
  }

  lemma SpacedStep(xs: seq<string>)
    requires |xs| > 1
    ensures Spaced(xs) == [xs[0]] + ([[' '] + Spaced(xs[1..])[0]] + Spaced(xs[1..])[1..])
  {}

  lemma {:induction false} SplitComma(xs: seq<string>)
    requires xs != [] && forall i | 0 <= i < |xs| :: Lacks(xs[i], ',')
    ensures SplitAt(JoinComma(xs), ',') == Spaced(xs)
  {
    SplitLacking(xs[0], ',');
    if |xs| == 1 {
      assert Spaced(xs) == [xs[0]];
    } else {
      SplitComma(xs[1..]);
      SplitCommaStep(xs[0], JoinComma(xs[1..]));
      SpacedStep(xs);
    }
  }

  lemma SplitCommaStep(x: string, rest: string)
    requires Lacks(x, ',')
    ensures SplitAt(x + ", " + rest, ',') == [x] + ([[' '] + SplitAt(rest, ',')[0]] + SplitAt(rest, ',')[1..])
  {
    SplitLacking(x, ',');
    SplitAppend(x, ',', [' '] + rest);
    assert x + ", " + rest == x + [','] + ([' '] + rest);
    SplitFront(' ', rest, ',');
  }

  lemma SplitFront(x: char, s: string, c: char)
    requires x != c
    ensures SplitAt([x] + s, c) == [[x] + SplitAt(s, c)[0]] + SplitAt(s, c)[1..]
  {
    assert ([x] + s)[1..] == s;
  }

  lemma {:induction false} RelFreeComma(names: seq<string>)
    requires GoodNames(names)
    ensures RelFree(JoinComma(names))
  {
    if |names| > 1 {
      RelFreeComma(names[1..]);
      RelFreeSpaced(JoinComma(names[1..]));
      RelFreeAround(names[0], ',', " " + JoinComma(names[1..]));
      assert JoinComma(names) == names[0] + [','] + (" " + JoinComma(names[1..]));
    }
  }

  /** What stands before the marker ends with a slash, if there is anything. */
  lemma Front(pre: seq<string>)
    requires GoodNames(pre)
    ensures var s := JoinWith(pre + [""], '/'); RelFree(s) && (s == [] || s[|s| - 1] == '/')
  {
    RelFreeJoin(pre + [""], '/');
    if pre != [] {
      JoinAppend(pre, [""], '/');
    }
  }

  lemma Back(names: seq<string>, post: seq<string>)
    requires GoodNames(names) && GoodNames(post)
    ensures RelFree(JoinWith([JoinComma(names)] + post, '/'))
  {
    RelFreeComma(names);
    RelFreeJoin([JoinComma(names)] + post, '/');
  }

  /** The section with its marker removed. */
  lemma RelRemoved(pre: seq<string>, names: seq<string>, post: seq<string>)
    requires names != [] && GoodNames(pre) && GoodNames(names) && GoodNames(post)
    ensures RemoveRel(JoinWith(pre + [REL + JoinComma(names)] + post, '/')) == JoinComma(Texts(Spread(pre, names, post)))
  {
    hide *;
    var y := JoinComma(names);
    JoinInside(pre, "", REL, y, post);
    JoinInside(pre, "", "", y, post);
    assert "" + REL + y == REL + y && "" + "" + y == y;
    var front, back := JoinWith(pre + [""], '/'), JoinWith([y] + post, '/');
    Front(pre);
    Back(names, post);
    RemoveOne(front, back);
    SpreadText(pre, names, post);
    assert front + "" + back == front + back;
  }

  /** A list of chunks between commas yields the names in all of them. */
  lemma CommaPieces(section: string, lists: seq<seq<string>>)
    requires lists != [] && forall i | 0 <= i < |lists| :: lists[i] != [] && GoodNames(lists[i])
    requires RemoveRel(section) == JoinComma(Texts(lists))
    ensures forall p :: p in GroupPieces(section) <==> In(p, lists)
  {
    var xs := Texts(lists);
    forall i | 0 <= i < |lists|
      ensures Lacks(xs[i], ',') && Strip(Spaced(xs)[i]) == xs[i] && SplitAt(xs[i], '/') == lists[i]
    {
      GoodJoin(lists[i]);
      StripTrimmed(xs[i]);
    }
    SplitComma(xs);
    var cut := SplitAt(RemoveRel(section), ',');
    assert cut == Spaced(xs);
    forall p ensures p in GroupPieces(section) <==> In(p, lists) {
      if In(p, lists) {
        var i :| 0 <= i < |lists| && p in lists[i];
        assert cut[i] in cut && p in SplitAt(Strip(cut[i]), '/');
      }
      if p in GroupPieces(section) {
        var x :| x in cut && p in SplitAt(Strip(x), '/');
        var i :| 0 <= i < |cut| && cut[i] == x;
        assert p in lists[i];
      }
    }
  }

  lemma RelSection(pre: seq<string>, names: seq<string>, post: seq<string>)
    requires names != [] && GoodNames(pre) && GoodNames(names) && GoodNames(post)
    ensures GroupPieces(JoinWith(pre + [REL + JoinComma(names)] + post, '/')) == Set(pre) + Set(names) + Set(post)
  {
    var section := JoinWith(pre + [REL + JoinComma(names)] + post, '/');
    SpreadGood(pre, names, post);
    RelRemoved(pre, names, post);
    CommaPieces(section, Spread(pre, names, post));
    forall p ensures p in GroupPieces(section) <==> p in Set(pre) + Set(names) + Set(post) {
      SpreadSame(pre, names, post, p);
    }
  }

  // ---- The section that holds the groups -----------------------------------------------------

  function TokenNames(t: Token): seq<string> {
    match t
    case NoGroup => []
    case Alone(name) => [name]
    case RelTo(names) => names
  }

  predicate GoodToken(t: Token) {
    GoodNames(TokenNames(t)) && (t.RelTo? ==> t.names != [])
  }

  lemma {:induction false} CommaToken(names: seq<string>)
    requires names != [] && GoodNames(names)
    ensures IsToken(JoinComma(names))
  {
    if |names| > 1 { CommaToken(names[1..]); }
  }

  lemma GoodIsToken(names: seq<string>)
    requires GoodNames(names)
    ensures Tokens(names)
  {}

  lemma GroupSection(pre: seq<string>, t: Token, post: seq<string>)
    requires GoodNames(pre) && GoodToken(t) && GoodNames(post)
    requires pre + TokenTexts(t) + post != []
    ensures Tokens(pre + TokenTexts(t) + post)
    ensures GroupPieces(JoinWith(pre + TokenTexts(t) + post, '/')) == Set(pre) + Set(TokenNames(t)) + Set(post)
  {
    hide GroupPieces, JoinWith, JoinComma, GoodName;
    GoodIsToken(pre);
    GoodIsToken(TokenNames(t));
    GoodIsToken(post);
    if t.RelTo? {
      CommaToken(t.names);
      RelSection(pre, t.names, post);
      assert TokenTexts(t) == [REL + JoinComma(t.names)];
    } else {
      assert TokenTexts(t) == TokenNames(t);
      PlainSection(pre + TokenTexts(t) + post);
    }
  }
}
