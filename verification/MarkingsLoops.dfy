/** The loops of al/common/classification.py, proved to compute the functions of Markings. */
module MarkingsLoops {
  import opened Prelude
  import opened Text
  import opened Sorting
  import opened Markings
  import opened MarkingsParse
  import opened MarkingsOps
  import opened MarkingsFold

  // ---- Parsing -------------------------------------------------------------------------------

  lemma ShortsInsert(t: Names, done: set<string>, p: string)
    ensures ShortsOfAll(t, done + {p}) == ShortsOfAll(t, done) + Shorts(t, p)
  {
    ShortsUnion(t, done, {p});
    forall s ensures s in ShortsOfAll(t, {p}) <==> s in Shorts(t, p) {
      if s in Shorts(t, p) { assert p in {p}; }
    }
  }

  method GetRequired(d: Definition, c: string, long: bool) returns (r: seq<string>)
    ensures r == Listing(d, DisplaySet(d.req, ReqOf(d, c), long))
  {
    var parts := Pieces(Upper(c));
    var found: set<string> := {};
    ghost var done: set<string> := {};
    while parts != {}
      invariant done + parts == Pieces(Upper(c))
      invariant found == ShortsOfAll(d.req, done)
      decreases |parts|
    {
      var p :| p in parts;
      ShortsInsert(d.req, done, p);
      if p in d.req.lts {
        found := found + {d.req.lts[p]};
      } else if p in d.req.stl {
        found := found + {p};
      } else if p in d.req.aliases {
        found := found + Set(d.req.aliases[p]);
      }
      parts, done := parts - {p}, done + {p};
    }
    assert done == Pieces(Upper(c));
    r := Listing(d, DisplaySet(d.req, found, long));
  }

  lemma SetAppend(xs: seq<string>, ys: seq<string>)
    ensures Set(xs + ys) == Set(xs) + Set(ys)
  {}

  lemma {:induction false} AllGroupPiecesAppend(sections: seq<string>, last: string)
    ensures AllGroupPieces(sections + [last]) == AllGroupPieces(sections) + GroupPieces(last)
  {
    if sections == [] {
      assert AllGroupPieces([last][1..]) == {};
    } else {
      AllGroupPiecesAppend(sections[1..], last);
      assert (sections + [last])[1..] == sections[1..] + [last];
    }
  }

  /** The pieces between the commas of one section, stripped. */
  function Stripped(xs: seq<string>): set<string> {
    set x | x in xs :: Strip(x)
  }

  method SectionNames(section: string) returns (names: seq<string>)
    ensures Set(names) == GroupPieces(section)
  {
    var temp := Stripped(SplitAt(RemoveRel(section), ','));
    ghost var all := temp;
    names := [];
    while temp != {}
      invariant temp <= all
      invariant forall p :: p in names <==> exists t | t in all - temp :: p in SplitAt(t, '/')
      decreases |temp|
    {
      var t :| t in temp;
      assert all - (temp - {t}) == (all - temp) + {t};
      names := names + SplitAt(t, '/');
      temp := temp - {t};
    }
    assert all - temp == all;
    forall p ensures p in Set(names) <==> p in GroupPieces(section) {
      if p in GroupPieces(section) {
        var x :| x in SplitAt(RemoveRel(section), ',') && p in SplitAt(Strip(x), '/');
        assert Strip(x) in all;
      }
    }
  }

  method GetGroups(d: Definition, c: string, long: bool) returns (g: seq<string>, s: seq<string>)
    ensures g == Listing(d, DisplaySet(d.groups, GroupsOf(d, c), long))
    ensures s == Listing(d, DisplaySet(d.subs, SubsOf(d, c), long))
  {
    var sections := SplitDouble(Upper(c));
    var names: seq<string> := [];
    for i := 0 to |sections|
      invariant Set(names) == AllGroupPieces(sections[..i])
    {
      AllGroupPiecesAppend(sections[..i], sections[i]);
      assert sections[..i + 1] == sections[..i] + [sections[i]];
      var more := SectionNames(sections[i]);
      SetAppend(names, more);
      names := names + more;
    }
    assert sections[..|sections|] == sections;
    var found1: set<string>, found2: set<string> := {}, {};
    for i := 0 to |names|
      invariant found1 == ShortsOfAll(d.groups, Set(names[..i]))
      invariant found2 == ShortsOfAll(d.subs, Unnamed(d, Set(names[..i])))
    {
      var n := names[i];
      assert Set(names[..i + 1]) == Set(names[..i]) + {n} by { assert names[..i + 1] == names[..i] + [n]; }
      ShortsInsert(d.groups, Set(names[..i]), n);
      UnnamedInsert(d, Set(names[..i]), n);
      if n in d.groups.lts {
        found1 := found1 + {d.groups.lts[n]};
      } else if n in d.groups.stl {
        found1 := found1 + {n};
      } else if n in d.groups.aliases {
        found1 := found1 + Set(d.groups.aliases[n]);
      } else if n in d.subs.lts {
        found2 := found2 + {d.subs.lts[n]};
      } else if n in d.subs.stl {
        found2 := found2 + {n};
      } else if n in d.subs.aliases {
        found2 := found2 + Set(d.subs.aliases[n]);
      }
    }
    assert names[..|names|] == names;
    g, s := Listing(d, DisplaySet(d.groups, found1, long)), Listing(d, DisplaySet(d.subs, found2, long));
  }

  /** The pieces that are no groups. */
  function Unnamed(d: Definition, pieces: set<string>): set<string> {
    set p | p in pieces && !Named(d.groups, p)
  }

  lemma UnnamedInsert(d: Definition, done: set<string>, p: string)
    ensures ShortsOfAll(d.subs, Unnamed(d, done + {p}))
            == ShortsOfAll(d.subs, Unnamed(d, done)) + if Named(d.groups, p) then {} else Shorts(d.subs, p)
  {
    if Named(d.groups, p) {
      assert Unnamed(d, done + {p}) == Unnamed(d, done);
    } else {
      assert Unnamed(d, done + {p}) == Unnamed(d, done) + {p};
      ShortsInsert(d.subs, Unnamed(d, done), p);
    }
  }

  // ---- Printing ------------------------------------------------------------------------------

  function Then(separator: string, text: string, there: bool): string {
    if there then separator + text else ""
  }

  /** The text put together piece by piece: the separators depend on what came before. */
  function Assembled(name: string, plain: seq<string>, shown: seq<string>, groupText: string, anyGroup: bool, subs: seq<string>): string {
    name + Then("//", JoinWith(plain, '/'), plain != []) + Then("//", JoinWith(shown, '/'), shown != [])
    + Then(if shown != [] then "/" else "//", groupText, anyGroup)
    + Then(if shown != [] || anyGroup then "/" else "//", JoinWith(subs, '/'), subs != [])
  }

  /** A separator goes in front of what is there, a single slash once there is something. */
  lemma JoinThen(a: seq<string>, b: seq<string>)
    ensures Then("//", JoinWith(a + b, '/'), a + b != [])
            == Then("//", JoinWith(a, '/'), a != []) + Then(if a != [] then "/" else "//", JoinWith(b, '/'), b != [])
  {
    if a == [] {
      assert a + b == b;
    } else if b == [] {
      assert a + b == a;
    } else {
      JoinAppend(a, b, '/');
      hide JoinWith;
      assert "//" + (JoinWith(a, '/') + ['/'] + JoinWith(b, '/')) == "//" + JoinWith(a, '/') + ("/" + JoinWith(b, '/'));
    }
  }

  lemma TokenThen(t: Token)
    ensures JoinWith(TokenTexts(t), '/') == TokenText(t) && (TokenTexts(t) == [] <==> t == NoGroup)
  {}

  lemma LastSection(shown: seq<string>, t: Token, subs: seq<string>)
    ensures var last := shown + TokenTexts(t) + subs;
            Then("//", JoinWith(last, '/'), last != [])
            == Then("//", JoinWith(shown, '/'), shown != [])
               + Then(if shown != [] then "/" else "//", TokenText(t), t != NoGroup)
               + Then(if shown != [] || t != NoGroup then "/" else "//", JoinWith(subs, '/'), subs != [])
  {
    hide JoinWith, Then, TokenText, TokenTexts;
    TokenThen(t);
    JoinThen(shown, TokenTexts(t));
    JoinThen(shown + TokenTexts(t), subs);
  }

  lemma AssembledIs(name: string, plain: seq<string>, shown: seq<string>, t: Token, subs: seq<string>)
    ensures JoinDouble([name] + (Section(plain) + Section(shown + TokenTexts(t) + subs)))
            == Assembled(name, plain, shown, TokenText(t), t != NoGroup, subs)
  {
    hide JoinWith, TokenText, TokenTexts, Then, JoinDouble;
    var last := shown + TokenTexts(t) + subs;
    LastSection(shown, t, subs);
    JoinSections(name, plain, last);
    Regroup(name + Then("//", JoinWith(plain, '/'), plain != []), Then("//", JoinWith(shown, '/'), shown != []),
            Then(if shown != [] then "/" else "//", TokenText(t), t != NoGroup),
            Then(if shown != [] || t != NoGroup then "/" else "//", JoinWith(subs, '/'), subs != []));
  }

  lemma Regroup(a: string, b: string, c: string, e: string)
    ensures a + (b + c + e) == a + b + c + e
  {}

  /** The sections after the first, each with its separator. */
  lemma JoinFirst(name: string, rest: seq<string>)
    ensures JoinDouble([name] + rest) == name + Then("//", JoinDouble(rest), rest != [])
  {
    assert ([name] + rest)[1..] == rest;
    if rest != [] { assert name + "//" + JoinDouble(rest) == name + ("//" + JoinDouble(rest)); }
  }

  lemma JoinSections(name: string, plain: seq<string>, last: seq<string>)
    ensures JoinDouble([name] + (Section(plain) + Section(last)))
            == name + Then("//", JoinWith(plain, '/'), plain != []) + Then("//", JoinWith(last, '/'), last != [])
  {
    hide JoinWith, JoinDouble;
    var a, b := JoinWith(plain, '/'), JoinWith(last, '/');
    JoinFirst(name, Section(plain) + Section(last));
    JoinFirst(a, Section(last));
    JoinFirst(b, []);
    assert b + "" == b && [b] + [] == [b];
    SectionsThen(a, plain, b, last);
    assert name + (Then("//", a, plain != []) + Then("//", b, last != []))
        == name + Then("//", a, plain != []) + Then("//", b, last != []);
  }

  lemma SectionsThen(a: string, plain: seq<string>, b: string, last: seq<string>)
    requires a == JoinWith(plain, '/') && b == JoinWith(last, '/')
    requires JoinDouble([b]) == b && JoinDouble([a] + Section(last)) == a + Then("//", JoinDouble(Section(last)), Section(last) != [])
    ensures var all := Section(plain) + Section(last);
            Then("//", JoinDouble(all), all != []) == Then("//", a, plain != []) + Then("//", b, last != [])
  {
    hide JoinWith, JoinDouble;
    if plain == [] {
      assert Section(plain) + Section(last) == Section(last);
    } else if last == [] {
      assert Section(plain) + Section(last) == [a] + Section(last);
      assert a + "" == a;
    } else {
      assert "//" + (a + ("//" + b)) == "//" + a + ("//" + b);
    }
  }

  /** The text grows section by section. */
  method Assemble(name: string, plain: seq<string>, shown: seq<string>, groupText: string, anyGroup: bool, subs: seq<string>)
    returns (out: string)
    ensures out == Assembled(name, plain, shown, groupText, anyGroup, subs)
  {
    hide JoinWith;
    out := name;
    if plain != [] { out := out + ("//" + JoinWith(plain, '/')); }
    ghost var out1 := name + Then("//", JoinWith(plain, '/'), plain != []);
    assert out == out1;
    if shown != [] { out := out + ("//" + JoinWith(shown, '/')); }
    ghost var out2 := out1 + Then("//", JoinWith(shown, '/'), shown != []);
    assert out == out2;
    if anyGroup { out := out + ((if |shown| > 0 then "/" else "//") + groupText); }
    ghost var out3 := out2 + Then(if shown != [] then "/" else "//", groupText, anyGroup);
    assert out == out3;
    if subs != [] { out := out + ((if anyGroup || |shown| > 0 then "/" else "//") + JoinWith(subs, '/')); }
    assert out == out3 + Then(if shown != [] || anyGroup then "/" else "//", JoinWith(subs, '/'), subs != []);
  }

  /** Steps 1 to 7. */
  method NormalizedText(d: Definition, level: int, req: seq<string>, groups0: seq<string>, subs0: seq<string>, long: bool, skip: bool)
    returns (text: Option<string>)
    ensures text == NormalText(d, Draft(level, req, groups0, subs0), long, skip)
  {
    hide Sorted, JoinDouble, Assembled, Demands, GroupToken, TokenText, TokenTexts, LevelText;
    var required := 0;
    for i := 0 to |req|
      invariant required == RequiredLevel(d, req[..i])
    {
      assert req[..i + 1][..i] == req[..i];
      required := Max(required, ParamsOf(d, req[i]).requireLvl);
    }
    var name := LevelText(d, Max(level, required), long);
    assert req[..|req|] == req;
    if name == None { return None; }

    var shown: seq<string> := [];
    for i := 0 to |req|
      invariant shown == RequiredGroups(d, req[..i])
    {
      assert req[..i + 1][..i] == req[..i];
      if ParamsOf(d, req[i]).requiredGroup { shown := shown + [req[i]]; }
    }
    var plain := d.order(Set(req) - Set(shown));
    shown := Sorted(shown);

    var subs := subs0;
    if |subs| > 0 && |d.autoSubs| > 0 && !skip { subs := Listing(d, Set(subs) + Set(d.autoSubs)); }
    var groups := DemandedGroups(d, subs, groups0);
    if |groups| > 0 && |d.autoGroups| > 0 && !skip { groups := Listing(d, Set(groups) + Set(d.autoGroups)); }

    var groupText := ShowGroups(d, groups, long);
    var out := Assemble(name.value, plain, shown, groupText, groups != [], Sorted(subs));
    TokenThere(d, groups, long);
    AssembledIs(name.value, plain, shown, GroupToken(d, groups, long), Sorted(subs));
    text := Some(out);
  }

  lemma TokenThere(d: Definition, groups: seq<string>, long: bool)
    ensures GroupToken(d, groups, long) == NoGroup <==> groups == []
  {}

  /** Step 4. */
  method DemandedGroups(d: Definition, subs: seq<string>, groups0: seq<string>) returns (groups: seq<string>)
    ensures groups == Demands(d, subs, groups0)
  {
    groups := groups0;
    for i := 0 to |subs|
      invariant groups == Demands(d, subs[..i], groups0)
    {
      assert subs[..i + 1][..i] == subs[..i];
      var p := ParamsOf(d, subs[i]);
      if p.requireGroup.Some? { groups := groups + [p.requireGroup.value]; }
      if p.limitedTo.Some? {
        if p.limitedTo.value in groups { groups := [p.limitedTo.value]; } else { groups := []; }
      }
    }
    assert subs[..|subs|] == subs;
  }

  /** Steps 6 and 7. */
  method ShowGroups(d: Definition, groups0: seq<string>, long: bool) returns (text: string)
    ensures text == TokenText(GroupToken(d, groups0, long))
  {
    var groups := groups0;
    if groups == [] { return ""; }
    if |groups| == 1 {
      var display := ParamsOf(d, groups[0]).solitary.GetOr(groups[0]);
      text := if display != groups[0] then display else REL + groups[0];
    } else {
      if !long {
        var aliases := d.order(d.groups.aliases.Keys);
        for i := 0 to |aliases|
          invariant groups == Compressed(d, aliases[..i], groups0)
        {
          assert aliases[..i + 1][..i] == aliases[..i];
          var values := Get(d.groups.aliases, aliases[i], []);
          if |values| > 1 && Sorted(values) == groups { groups := [aliases[i]]; }
        }
        assert aliases[..|aliases|] == aliases;
      }
      text := REL + JoinComma(Sorted(groups));
    }
  }

  // ---- Folding -------------------------------------------------------------------------------

  /** The loop that classifies a finished submission (al/core/dispatch.py) over one order of its files. */
  method FoldMax(d: Definition, init: string, markings: seq<string>) returns (r: Option<string>)
    ensures r == MaxFold(d, init, markings)
  {
    r := Some(init);
    for i := 0 to |markings|
      invariant r == MaxFold(d, init, markings[..i])
    {
      assert markings[..i + 1][..i] == markings[..i];
      if r.Some? { r := MaxText(d, r.value, markings[i], true); }
    }
    assert markings[..|markings|] == markings;
  }

  /** The loop that lowers a file's marking when a submission is deleted (al/core/datastore.py). */
  method FoldMin(d: Definition, markings: seq<string>) returns (r: Option<string>)
    requires markings != []
    ensures r == MinFold(d, markings[0], markings)
  {
    r := Some(markings[0]);
    for i := 0 to |markings|
      invariant r == MinFold(d, markings[0], markings[..i])
    {
      assert markings[..i + 1][..i] == markings[..i];
      if r.Some? { r := MinText(d, r.value, markings[i], true); }
    }
    assert markings[..|markings|] == markings;
  }
}
