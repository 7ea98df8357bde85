/** Parsing what the normaliser printed gives back what it printed from. */
module MarkingsParse {
  import opened Prelude
  import opened Text
  import opened Sorting
  import opened Markings
  import opened MarkingsText

  // ---- Names and the short names they stand for ----------------------------------------------

  ghost predicate AllKnown(t: Names, xs: set<string>) {
    forall x | x in xs :: Known(t, x)
  }

  lemma ShortsKnown(t: Names, xs: set<string>)
    requires AllKnown(t, xs)
    ensures ShortsOfAll(t, xs) == CanonSet(t, xs)
  {
    forall s ensures s in ShortsOfAll(t, xs) <==> s in CanonSet(t, xs) {
      if s in CanonSet(t, xs) {
        var x :| x in xs && s == Canon(t, x);
        assert s in Shorts(t, x);
      }
    }
  }

  lemma ShortsUnion(t: Names, xs: set<string>, ys: set<string>)
    ensures ShortsOfAll(t, xs + ys) == ShortsOfAll(t, xs) + ShortsOfAll(t, ys)
  {
    forall s ensures s in ShortsOfAll(t, xs + ys) <==> s in ShortsOfAll(t, xs) + ShortsOfAll(t, ys) {
      if s in ShortsOfAll(t, xs + ys) {
        var p :| p in xs + ys && s in Shorts(t, p);
        assert p in xs ==> s in ShortsOfAll(t, xs);
      }
      if s in ShortsOfAll(t, xs) {
        var p :| p in xs && s in Shorts(t, p);
        assert p in xs + ys;
      }
      if s in ShortsOfAll(t, ys) {
        var p :| p in ys && s in Shorts(t, p);
        assert p in xs + ys;
      }
    }
  }

  /** Pieces that name nothing do not matter. */
  lemma ShortsSame(t: Names, xs: set<string>, ys: set<string>)
    requires forall x :: Named(t, x) ==> (x in xs <==> x in ys)
    ensures ShortsOfAll(t, xs) == ShortsOfAll(t, ys)
  {
    forall s ensures s in ShortsOfAll(t, xs) <==> s in ShortsOfAll(t, ys) {
      if s in ShortsOfAll(t, xs) {
        var p :| p in xs && s in Shorts(t, p);
        assert Named(t, p);
      }
      if s in ShortsOfAll(t, ys) {
        var p :| p in ys && s in Shorts(t, p);
        assert Named(t, p);
      }
    }
  }

  lemma KnownGood(t: Names, xs: seq<string>)
    requires GoodTable(t) && AllKnown(t, Set(xs))
    ensures GoodNames(xs)
  {
    forall i | 0 <= i < |xs| ensures GoodName(xs[i]) {
      assert xs[i] in Set(xs);
    }
  }

  lemma NamedGood(t: Names, p: string)
    requires GoodTable(t) && Named(t, p)
    ensures GoodName(p)
  {}

  lemma ShortIsItself(t: Names, s: string)
    requires GoodTable(t) && s in t.stl
    ensures Canon(t, s) == s
  {}

  // ---- The group token -----------------------------------------------------------------------

  lemma {:induction false} CompressedIs(d: Definition, aliases: seq<string>, groups: seq<string>)
    ensures var r := Compressed(d, aliases, groups);
            r == groups || (|r| == 1 && r[0] in d.groups.aliases && Set(d.groups.aliases[r[0]]) == Set(groups))
  {
    if aliases != [] {
      CompressedIs(d, aliases[..|aliases| - 1], groups);
      var a := aliases[|aliases| - 1];
      SortedSet(Get(d.groups.aliases, a, []));
    }
  }

  /** What a list shown behind "REL TO" stands for. */
  lemma ShownStandsFor(d: Definition, groups: seq<string>, shown: seq<string>)
    requires GoodTable(d.groups) && AllKnown(d.groups, Set(groups)) && groups != []
    requires shown == groups
             || (|shown| == 1 && shown[0] in d.groups.aliases && Set(d.groups.aliases[shown[0]]) == Set(groups))
    ensures var names := Sorted(shown);
            names != [] && GoodNames(names) && (forall x | x in Set(names) :: Named(d.groups, x))
            && ShortsOfAll(d.groups, Set(names)) == CanonSet(d.groups, Set(groups))
  {
    SortedSet(shown);
    var names := Sorted(shown);
    forall i | 0 <= i < |names| ensures GoodName(names[i]) && Named(d.groups, names[i]) {
      assert names[i] in Set(names);
    }
    ShortsKnown(d.groups, Set(groups));
    if shown != groups {
      var a := shown[0];
      assert Set(names) == {a};
      forall s ensures s in ShortsOfAll(d.groups, {a}) <==> s in CanonSet(d.groups, Set(groups)) {
        if s in Set(groups) { ShortIsItself(d.groups, s); assert a in {a} && s in Shorts(d.groups, a); }
        if s in CanonSet(d.groups, Set(groups)) {
          var x :| x in Set(groups) && s == Canon(d.groups, x);
          ShortIsItself(d.groups, x);
        }
      }
    }
  }

  /** The token names the groups it was made from, and nothing else. */
  lemma TokenStandsFor(d: Definition, groups: seq<string>, long: bool)
    requires WellFormed(d) && AllKnown(d.groups, Set(groups))
    ensures var t := GroupToken(d, groups, long);
            GoodToken(t) && (forall x | x in Set(TokenNames(t)) :: Named(d.groups, x))
            && ShortsOfAll(d.groups, Set(TokenNames(t))) == CanonSet(d.groups, Set(groups))
  {
    hide Disjoint, GoodLevels, Trimmed, IsUpper, Lacks, RelFree, GoodTable;
    if |groups| == 1 {
      SoleToken(d, groups[0]);
      assert Set(groups) == {groups[0]};
      ShownStandsFor(d, groups, groups);
      assert Sorted(groups) == groups;
    } else if groups != [] {
      if long {
        ShownStandsFor(d, groups, groups);
      } else {
        CompressedIs(d, d.order(d.groups.aliases.Keys), groups);
        ShownStandsFor(d, groups, Compressed(d, d.order(d.groups.aliases.Keys), groups));
      }
    }
  }

  lemma SoleToken(d: Definition, g: string)
    requires GoodTable(d.groups) && GoodParams(d) && Known(d.groups, g)
    ensures var shown := ParamsOf(d, g).solitary.GetOr(g);
            GoodName(shown) && Named(d.groups, shown)
            && ShortsOfAll(d.groups, {shown}) == CanonSet(d.groups, {g})
  {
    var shown := ParamsOf(d, g).solitary.GetOr(g);
    assert GoodParam(d, g, ParamsOf(d, g));
    if shown == g {
      ShortsKnown(d.groups, {g});
    } else {
      assert d.groups.aliases[shown] == [Canon(d.groups, g)];
      assert Shorts(d.groups, shown) == {Canon(d.groups, g)};
      forall s ensures s in ShortsOfAll(d.groups, {shown}) <==> s == Canon(d.groups, g) {
        assert shown in {shown};
      }
    }
  }

  // ---- The sections of a printed marking -----------------------------------------------------

  lemma JoinSole(name: string)
    ensures JoinWith([name], '/') == name
  {}

  lemma Sections(name: string, first: seq<string>, last: seq<string>)
    requires IsToken(name) && Tokens(first) && Tokens(last)
    ensures var parts := [name] + Section(first) + Section(last);
            var text := JoinDouble(parts);
            Upper(text) == text && SplitDouble(text) == parts
            && forall p | p != "" :: p in Pieces(text) <==> p == name || p in first || p in last
  {
    hide Pieces, IsUpper, JoinWith, SplitAt, SplitDouble, JoinDouble, AllPieces;
    var parts := [name] + Section(first) + Section(last);
    if first != [] { TokensJoin(first); }
    if last != [] { TokensJoin(last); }
    TokensJoin([name]);
    JoinSole(name);
    SplitJoinDouble(parts);
    JoinDoubleUpper(parts);
    PiecesOfJoined(parts);
    SplitLacking(name, '/');
    UpperUpper(JoinDouble(parts));
    SectionPieces(name, first, last);
  }

  lemma SectionPieces(name: string, first: seq<string>, last: seq<string>)
    requires SplitAt(name, '/') == [name]
    requires first != [] ==> Pieces(JoinWith(first, '/')) == Set(first)
    requires last != [] ==> Pieces(JoinWith(last, '/')) == Set(last)
    ensures AllPieces([name] + Section(first) + Section(last)) == {name} + Set(first) + Set(last)
  {
    var parts := [name] + Section(first) + Section(last);
    assert Pieces(name) == {name};
    var rest := Section(first) + Section(last);
    assert parts[1..] == rest;
    assert AllPieces(Section(last)) == Set(last) by {
      if last != [] { assert Section(last)[1..] == [] && AllPieces(Section(last)[1..]) == {}; }
    }
    assert AllPieces(rest) == Set(first) + Set(last) by {
      if first == [] { assert rest == Section(last) && Set(first) == {}; }
      else { assert rest[1..] == Section(last); }
    }
  }

  lemma SectionGroupPieces(name: string, first: seq<string>, last: seq<string>, names: set<string>)
    requires GoodName(name) && GoodNames(first)
    requires if last == [] then names == {} else GroupPieces(JoinWith(last, '/')) == names
    ensures AllGroupPieces([name] + Section(first) + Section(last)) == {name} + Set(first) + names
  {
    hide GroupPieces, GoodName;
    var parts := [name] + Section(first) + Section(last);
    PlainSection([name]);
    assert JoinWith([name], '/') == name;
    var rest := Section(first) + Section(last);
    assert parts[1..] == rest;
    assert AllGroupPieces(Section(last)) == names by {
      if last != [] { assert Section(last)[1..] == [] && AllGroupPieces(Section(last)[1..]) == {}; }
    }
    assert AllGroupPieces(rest) == Set(first) + names by {
      if first == [] {
        assert rest == Section(last) && Set(first) == {};
      } else {
        PlainSection(first);
        assert rest[1..] == Section(last);
      }
    }
  }

  // ---- Print, then parse ---------------------------------------------------------------------

  /** The lists hold names of the definition, long or short. */
  ghost predicate GoodDraft(d: Definition, l: Draft) {
    && l.level in d.levelShort
    && AllKnown(d.req, Set(l.req)) && AllKnown(d.groups, Set(l.groups)) && AllKnown(d.subs, Set(l.subs))
  }

  function PartsOf(d: Definition, l: Draft): Parts {
    Parts(l.level, CanonSet(d.req, Set(l.req)), CanonSet(d.groups, Set(l.groups)), CanonSet(d.subs, Set(l.subs)))
  }

  /** The level, the names before the group section, and those within it. */
  lemma {:induction false} RequiredSplit(d: Definition, req: seq<string>)
    ensures forall r | r in RequiredGroups(d, req) :: r in req
  {
    if req != [] { RequiredSplit(d, req[..|req| - 1]); }
  }

  ghost predicate ListsReq(d: Definition, req: seq<string>, plain: seq<string>, shown: seq<string>) {
    Set(plain) + Set(shown) == Set(req)
  }

  lemma RequiredShown(d: Definition, req: seq<string>)
    requires forall s :: Lists(d.order(s), s)
    ensures ListsReq(d, req, PlainRequired(d, req), Sorted(RequiredGroups(d, req)))
  {
    RequiredSplit(d, req);
    SortedSet(RequiredGroups(d, req));
    var s := Set(req) - Set(RequiredGroups(d, req));
    assert Lists(d.order(s), s);
  }

  lemma LevelPrinted(d: Definition, level: int, long: bool)
    requires GoodLevels(d) && level in d.levelShort
    ensures var t := LevelText(d, level, long);
            t.Some? && GoodName(t.value) && LevelName(d, t.value) && LevelNamed(d, t.value) == Some(level)
  {
    assert GoodLevel(d, level);
  }

  lemma ReqPieces(d: Definition, name: string, plain: seq<string>, shown: seq<string>, t: Token, subs: seq<string>, req: seq<string>,
                  pieces: set<string>)
    requires WellFormed(d) && LevelName(d, name) && ListsReq(d, req, plain, shown)
    requires AllKnown(d.req, Set(req)) && AllKnown(d.subs, Set(subs))
    requires forall x | x in Set(TokenNames(t)) :: Named(d.groups, x)
    requires forall p | p != "" :: p in pieces <==> p == name || p in plain || p in shown + TokenTexts(t) + subs
    ensures ShortsOfAll(d.req, pieces) == CanonSet(d.req, Set(req))
  {
    hide GoodLevels, GoodParams, Trimmed, IsUpper, Lacks;
    assert Disjoint(d);
    forall x | Named(d.req, x) ensures x in pieces <==> x in Set(req) {
      NamedReq(d, x, t);
      assert x in Set(plain) + Set(shown) <==> x in Set(req);
      assert x !in Set(subs);
    }
    ShortsSame(d.req, pieces, Set(req));
    ShortsKnown(d.req, Set(req));
  }

  /** A required name is neither empty nor the text of the group token. */
  lemma NamedReq(d: Definition, x: string, t: Token)
    requires GoodTable(d.req) && Disjoint(d) && Named(d.req, x)
    requires forall y | y in Set(TokenNames(t)) :: Named(d.groups, y)
    ensures x != "" && x !in TokenTexts(t)
  {
    hide GoodLevels, GoodParams, IsUpper, Lacks;
    NamedGood(d.req, x);
    if t.Alone? {
      assert t.name in Set(TokenNames(t));
    }
    if t.RelTo? { RelShown(t); }
  }

  lemma RelShown(t: Token)
    requires t.RelTo?
    ensures !RelFree(TokenText(t))
  {
    assert RelAt(TokenText(t), 0);
  }

  lemma GroupsAndSubs(d: Definition, name: string, req: set<string>, names: set<string>, subs: set<string>, pieces: set<string>,
                      groups: set<string>)
    requires WellFormed(d) && LevelName(d, name) && AllKnown(d.req, req) && AllKnown(d.subs, subs)
    requires (forall x | x in names :: Named(d.groups, x)) && ShortsOfAll(d.groups, names) == groups
    requires pieces == {name} + req + names + subs
    ensures ShortsOfAll(d.groups, pieces) == groups
    ensures ShortsOfAll(d.subs, set p | p in pieces && !Named(d.groups, p)) == CanonSet(d.subs, subs)
  {
    hide GoodLevels, GoodParams, GoodTable, ShortsOfAll, LevelName;
    assert Disjoint(d);
    ShortsSame(d.groups, pieces, names);
    ShortsSame(d.subs, (set p | p in pieces && !Named(d.groups, p)), subs);
    ShortsKnown(d.subs, subs);
  }

  /** The printed body of a marking, read back. */
  lemma BodyParses(d: Definition, l: Draft, name: string, long: bool)
    requires WellFormed(d) && GoodDraft(d, l)
    requires GoodName(name) && LevelName(d, name) && LevelNamed(d, name) == Some(l.level)
    ensures Parse(d, JoinDouble([name] + Body(d, l, long))) == Some(PartsOf(d, l))
  {
    hide Disjoint, GoodLevels, GoodParams, GoodTable, GoodName, GroupToken, GroupPieces, ShortsOfAll, CanonSet, RequiredGroups,
         JoinWith, JoinDouble, SplitDouble, Pieces, AllGroupPieces, LevelName, Named;
    var plain, shown, t, subs := PlainRequired(d, l.req), Sorted(RequiredGroups(d, l.req)), GroupToken(d, l.groups, long), Sorted(l.subs);
    var last := shown + TokenTexts(t) + subs;
    RequiredShown(d, l.req);
    SortedSet(l.subs);
    TokenStandsFor(d, l.groups, long);
    AllGood(d, l, plain, shown, subs);
    GoodIsToken([name] + plain);
    assert ([name] + plain)[0] == name && ([name] + plain)[1..] == plain;
    assert Tokens(plain) by {
      forall i | 0 <= i < |plain| ensures IsToken(plain[i]) { assert ([name] + plain)[i + 1] == plain[i]; }
    }
    if last != [] { GroupSection(shown, t, subs); }
    Sections(name, plain, last);
    var names := if last == [] then {} else Set(shown) + Set(TokenNames(t)) + Set(subs);
    SectionGroupPieces(name, plain, last, names);
    var text := JoinDouble([name] + Section(plain) + Section(last));
    assert [name] + Body(d, l, long) == [name] + Section(plain) + Section(last);
    ReqPieces(d, name, plain, shown, t, subs, l.req, Pieces(text));
    var pieces := AllGroupPieces(SplitDouble(text));
    NamesWhenEmpty(shown, t, subs);
    assert pieces == {name} + Set(l.req) + Set(TokenNames(t)) + Set(l.subs);
    GroupsAndSubs(d, name, Set(l.req), Set(TokenNames(t)), Set(l.subs), pieces, CanonSet(d.groups, Set(l.groups)));
  }

  lemma NamesWhenEmpty(shown: seq<string>, t: Token, subs: seq<string>)
    ensures shown + TokenTexts(t) + subs == [] ==> Set(shown) + Set(TokenNames(t)) + Set(subs) == {}
  {
    if t != NoGroup { assert |TokenTexts(t)| == 1; }
  }

  lemma AllGood(d: Definition, l: Draft, plain: seq<string>, shown: seq<string>, subs: seq<string>)
    requires WellFormed(d) && GoodDraft(d, l) && ListsReq(d, l.req, plain, shown) && Set(subs) == Set(l.subs)
    ensures GoodNames(plain) && GoodNames(shown) && GoodNames(subs)
  {
    hide Disjoint, GoodLevels, GoodParams, GoodTable, GoodName, Known;
    assert Set(plain) <= Set(l.req) && Set(shown) <= Set(l.req);
    KnownGood(d.req, plain);
    KnownGood(d.req, shown);
    KnownGood(d.subs, subs);
  }

  // ---- The rules keep to the definition's names ----------------------------------------------

  lemma AutoKnown(d: Definition, t: Names, names: seq<string>, auto: seq<string>, skip: bool)
    requires AllKnown(t, Set(names)) && (forall a | a in auto :: a in t.stl) && forall s :: Lists(d.order(s), s)
    ensures AllKnown(t, Set(WithAuto(d, names, auto, skip)))
  {
    ListingSet(d, Set(names) + Set(auto));
  }

  lemma ListingSet(d: Definition, s: set<string>)
    requires forall x :: Lists(d.order(x), x)
    ensures Set(Listing(d, s)) == s && (s != {} <==> |Listing(d, s)| > 0)
  {
    SortedSet(d.order(s));
    assert Lists(d.order(s), s);
    assert Set(d.order(s)) == s;
    if |Listing(d, s)| > 0 { assert Listing(d, s)[0] in Set(Listing(d, s)); }
  }

  lemma {:induction false} DemandsKnown(d: Definition, subs: seq<string>, groups: seq<string>)
    requires GoodParams(d) && AllKnown(d.groups, Set(groups))
    ensures AllKnown(d.groups, Set(Demands(d, subs, groups)))
  {
    if subs != [] {
      DemandsKnown(d, subs[..|subs| - 1], groups);
      var sub := subs[|subs| - 1];
      assert GoodParam(d, sub, ParamsOf(d, sub));
      var before := Demands(d, subs[..|subs| - 1], groups);
      forall g | g in Demand(d, sub, before) ensures Known(d.groups, g) {
        if g in before { assert g in Set(before); }
      }
    }
  }

  lemma {:induction false} RequiredDefined(d: Definition, req: seq<string>)
    requires GoodParams(d)
    ensures RequiredLevel(d, req) == 0 || (RequiredLevel(d, req) >= 0 && RequiredLevel(d, req) in d.levelShort)
  {
    if req != [] {
      RequiredDefined(d, req[..|req| - 1]);
      assert GoodParam(d, req[|req| - 1], ParamsOf(d, req[|req| - 1]));
    }
  }

  lemma SettledGood(d: Definition, l: Draft, skip: bool)
    requires WellFormed(d) && GoodDraft(d, l)
    ensures GoodDraft(d, Settled(d, l, skip))
  {
    hide Disjoint, GoodTable, WithAuto, Demands, RequiredLevel, Known;
    AutoKnown(d, d.subs, l.subs, d.autoSubs, skip);
    var subs := WithAuto(d, l.subs, d.autoSubs, skip);
    DemandsKnown(d, subs, l.groups);
    AutoKnown(d, d.groups, Demands(d, subs, l.groups), d.autoGroups, skip);
    RequiredDefined(d, l.req);
    assert GoodLevel(d, l.level);
  }

  /** Parsing a printed marking gives the level, required names, groups and subgroups that steps 1
      to 5 settled on: nothing is lost or confused by the separators, the set order of the required
      names, solitary names, group aliases or the long format. */
  lemma ParsePrint(d: Definition, l: Draft, long: bool, skip: bool)
    requires WellFormed(d) && GoodDraft(d, l)
    ensures var text := NormalText(d, l, long, skip);
            text.Some? && Parse(d, text.value) == Some(PartsOf(d, Settled(d, l, skip)))
  {
    SettledGood(d, l, skip);
    var s := Settled(d, l, skip);
    LevelPrinted(d, s.level, long);
    BodyParses(d, s, LevelText(d, s.level, long).value, long);
  }
}
