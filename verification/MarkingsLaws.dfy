/** What normalising, comparing and combining markings says, name by name. */
module MarkingsLaws {
  import opened Prelude
  import opened Text
  import opened Sorting
  import opened Markings
  import opened MarkingsParse
  import opened MarkingsNormal
  import opened MarkingsOps
  import opened MarkingsVisible

  /** What the normalised marking says; it is there, and says something, for every marking that parses. */
  function Meant(d: Definition, c: string, skip: bool): Parts
    requires Normalize(d, c, true, skip).Some? && Parse(d, Normalize(d, c, true, skip).value).Some?
  {
    Parse(d, Normalize(d, c, true, skip).value).value
  }

  /** The marking has a meaning. */
  ghost predicate Means(d: Definition, c: string, skip: bool) {
    Normalize(d, c, true, skip).Some? && Parse(d, Normalize(d, c, true, skip).value).Some?
  }

  lemma Meaning(d: Definition, c: string, skip: bool)
    requires WellFormed(d) && Parse(d, c).Some?
    ensures Means(d, c, skip) && Meant(d, c, skip) == Normal(d, Parse(d, c).value, true, skip) && GoodParts(d, Meant(d, c, skip))
  {
    hide WellFormed, Parse, Normalize, Normal, GoodParts;
    NormalizedParts(d, c, true, skip);
    ParsedGood(d, Normalize(d, c, true, skip).value);
  }

  // ---- Reading a marking -------------------------------------------------------------------------

  /** The piece is the long name, the short name or an alias of `s`. */
  predicate Stands(t: Names, piece: string, s: string) {
    if piece in t.lts then s == t.lts[piece]
    else if piece in t.stl then s == piece
    else piece in t.aliases && s in t.aliases[piece]
  }

  lemma ShortsSay(t: Names, pieces: set<string>, s: string)
    ensures s in ShortsOfAll(t, pieces) <==> exists x :: x in pieces && Stands(t, x, s)
  {
    forall x ensures s in Shorts(t, x) <==> Stands(t, x, s) {}
    hide Shorts, Stands;
    if s in ShortsOfAll(t, pieces) { var x :| x in pieces && s in Shorts(t, x); assert Stands(t, x, s); }
    if x :| x in pieces && Stands(t, x, s) { assert s in Shorts(t, x); }
  }

  /** The piece stands between commas and slashes of the section, REL TO left out. */
  ghost predicate PieceOf(section: string, piece: string) {
    exists item :: item in SplitAt(RemoveRel(section), ',') && piece in SplitAt(Strip(item), '/')
  }

  ghost predicate InSections(sections: seq<string>, piece: string) {
    exists i :: 0 <= i < |sections| && PieceOf(sections[i], piece)
  }

  lemma {:induction false} PiecesSay(sections: seq<string>, piece: string)
    ensures piece in AllGroupPieces(sections) <==> InSections(sections, piece)
  {
    if sections != [] {
      PiecesSay(sections[1..], piece);
      assert piece in GroupPieces(sections[0]) <==> PieceOf(sections[0], piece);
      hide PieceOf, GroupPieces;
      if i :| 0 <= i < |sections| && PieceOf(sections[i], piece) {
        assert i > 0 ==> sections[i] == sections[1..][i - 1];
      }
      if i :| 0 <= i < |sections[1..]| && PieceOf(sections[1..][i], piece) { assert sections[i + 1] == sections[1..][i]; }
    }
  }

  /** A name is read from a marking, whatever the letter case, if one of the pieces stands for it: any piece
      for a required name, a listed piece of any section for a group, and for a subgroup one that does not
      name a group. */
  lemma ReadSays(d: Definition, c: string, s: string)
    requires Parse(d, c).Some?
    ensures var p, sections := Parse(d, c).value, SplitDouble(Upper(c));
            && (s in p.req <==> exists x :: x in SplitAt(Upper(c), '/') && Stands(d.req, x, s))
            && (s in p.groups <==> exists x :: InSections(sections, x) && Stands(d.groups, x, s))
            && (s in p.subs <==> exists x :: InSections(sections, x) && !Named(d.groups, x) && Stands(d.subs, x, s))
  {
    hide PieceOf, Stands, AllGroupPieces, ShortsOfAll, Named;
    var sections := SplitDouble(Upper(c));
    var pieces := AllGroupPieces(sections);
    var rest := set x | x in pieces && !Named(d.groups, x);
    ShortsSay(d.req, Pieces(Upper(c)), s);
    ShortsSay(d.groups, pieces, s);
    ShortsSay(d.subs, rest, s);
    assert SubsOf(d, c) == ShortsOfAll(d.subs, rest);
    forall x ensures x in pieces <==> InSections(sections, x) { PiecesSay(sections, x); }
    assert s in GroupsOf(d, c) <==> exists x :: InSections(sections, x) && Stands(d.groups, x, s);
    assert s in SubsOf(d, c) <==> exists x :: InSections(sections, x) && !Named(d.groups, x) && Stands(d.subs, x, s);
  }

  /** The letter case of a marking does not matter. */
  lemma CaseSays(d: Definition, c: string)
    ensures Parse(d, Upper(c)) == Parse(d, c)
  {
    assert Upper(Upper(c)) == Upper(c);
  }

  /** The level is the one whose short name, long name or alias the marking begins with. */
  lemma LevelSays(d: Definition, c: string)
    requires Parse(d, c).Some?
    ensures var n, i := SplitDouble(Upper(c))[0], Parse(d, c).value.level;
            || (n in d.levelIndex && i == d.levelIndex[n])
            || (n !in d.levelIndex && n in d.levelLts && d.levelLts[n] in d.levelIndex && i == d.levelIndex[d.levelLts[n]])
            || (n !in d.levelIndex && n in d.levelAliases && d.levelAliases[n] in d.levelIndex && i == d.levelIndex[d.levelAliases[n]])
  {}

  /** A marking that begins with a level's short name or alias is read. */
  lemma LevelIsRead(d: Definition, c: string)
    requires var n := SplitDouble(Upper(c))[0];
             || n in d.levelIndex || (n in d.levelLts && d.levelLts[n] in d.levelIndex) || (n in d.levelAliases && d.levelAliases[n] in d.levelIndex)
    ensures Parse(d, c).Some?
  {}

  // ---- normalize_classification ----------------------------------------------------------------

  /** `r` is the higher of `level` and the levels that the names ask for. */
  ghost predicate Raised(d: Definition, level: int, req: set<string>, r: int) {
    && r >= level && (forall x | x in req :: ParamsOf(d, x).requireLvl <= r)
    && (r == level || exists x :: x in req && ParamsOf(d, x).requireLvl == r)
  }

  /** The names of `base`, and, if there are any, those selected automatically. */
  ghost predicate Selected(base: set<string>, auto: seq<string>, skip: bool, r: set<string>) {
    forall x :: x in r <==> x in base || (base != {} && !skip && x in auto)
  }

  lemma RaisedBy(d: Definition, level: int, req: set<string>, long: bool)
    requires Sound(d) && ReqNames(d, req) && level >= 0
    ensures Raised(d, level, req, Max(level, RequiredLevel(d, Listing(d, DisplaySet(d.req, req, long)))))
  {
    hide GoodLevels, Listing, RequiredLevel;
    var names := DisplaySet(d.req, req, long);
    var r := Max(level, RequiredLevel(d, Listing(d, names)));
    assert SameParams(d, d.req);
    ListingSet(d, names);
    RequiredBound(d, Listing(d, names));
    forall x | x in req ensures ParamsOf(d, x).requireLvl <= r {
      assert Display(d.req, x, long) in Set(Listing(d, names));
    }
    if r != level {
      var y :| y in Listing(d, names) && ParamsOf(d, y).requireLvl == r;
      assert y in names;
      var x :| x in req && Display(d.req, x, long) == y;
      assert ParamsOf(d, x).requireLvl == r;
    }
  }

  lemma SelectedBy(base: set<string>, auto: seq<string>, skip: bool)
    ensures Selected(base, auto, skip, AutoSet(base, auto, skip))
  {}

  /** Normalising raises the level to what the required names ask for, keeps these names, and selects
      subgroups automatically once there is one. */
  lemma NormalizeSays(d: Definition, c: string, long: bool, skip: bool)
    requires WellFormed(d) && Parse(d, c).Some?
    ensures Normalize(d, c, long, skip).Some? && Parse(d, Normalize(d, c, long, skip).value).Some?
    ensures var p, r := Parse(d, c).value, Parse(d, Normalize(d, c, long, skip).value).value;
            && Raised(d, p.level, p.req, r.level) && r.req == p.req
            && Selected(p.subs, d.autoSubs, skip, r.subs)
  {
    var p := Parse(d, c).value;
    SoundDefinition(d);
    ParsedGood(d, c);
    LevelBound(d, p.level);
    RaisedBy(d, p.level, p.req, long) by { hide GoodTable, GoodParams, Disjoint, GoodLevels; }
    hide WellFormed, Parse, Normalize, NormalGroups, Raised;
    NormalizedParts(d, c, long, skip);
    NormalIs(d, p, long, skip);
    SelectedBy(p.subs, d.autoSubs, skip);
  }

  /** The groups a marking with these subgroups asks for, no subgroup being limited to a group. */
  ghost predicate Asked(d: Definition, groups: set<string>, subs: set<string>, g: string) {
    g in groups || exists s :: s in subs && ParamsOf(d, s).requireGroup == Some(g)
  }

  /** The groups before automatic selection. */
  function BaseGroups(d: Definition, groups: set<string>, names: seq<string>, long: bool): set<string> {
    (set x | x in groups && Kept(d, names, Display(d.groups, x, long))) + Added(d, names)
  }

  /** The names of the normalised subgroups, as they are shown. */
  ghost predicate NamesOf(d: Definition, names: seq<string>, subs: set<string>) {
    GoodTable(d.subs) && SameParams(d, d.subs) && AllKnown(d.subs, Set(names)) && CanonSet(d.subs, Set(names)) == subs
  }

  /** Normalising settles on the base groups, and selects automatically. */
  lemma GroupsBase(d: Definition, c: string, long: bool, skip: bool) returns (names: seq<string>, base: set<string>)
    requires WellFormed(d) && Parse(d, c).Some?
    ensures Normalize(d, c, long, skip).Some? && Parse(d, Normalize(d, c, long, skip).value).Some?
    ensures var p, r := Parse(d, c).value, Parse(d, Normalize(d, c, long, skip).value).value;
            && NamesOf(d, names, r.subs) && base == BaseGroups(d, p.groups, names, long)
            && Selected(base, d.autoGroups, skip, r.groups)
  {
    var p := Parse(d, c).value;
    ParsedGood(d, c);
    names := SubList(d, p.subs, long, skip);
    base := BaseGroups(d, p.groups, names, long);
    SubListKnown(d, p.subs, long, skip);
    SubsSettle(d, p.subs, long, skip);
    hide WellFormed, Parse, Normalize, SubList, Added, Kept, GoodTable, CanonSet;
    NormalizedParts(d, c, long, skip);
    NormalIs(d, p, long, skip);
    SelectedBy(base, d.autoGroups, skip);
  }

  lemma RequiredBase(d: Definition, groups: set<string>, names: seq<string>, subs: set<string>, long: bool, h: string)
    requires NamesOf(d, names, subs) && NoLimits(d)
    ensures h in BaseGroups(d, groups, names, long) <==> Asked(d, groups, subs, h)
  {
    NoLimitsAdd(d, names);
    CanonDemands(d, Set(names), h);
    hide Added, Kept, NoLimits, GoodTable, CanonSet;
    assert h in Added(d, names) <==> Demanded(d, subs, h);
  }

  /** Without limited_to_group: the groups are those of the marking and those its subgroups require, and,
      once there is one, those selected automatically. */
  lemma RequiredGroupsSay(d: Definition, c: string, long: bool, skip: bool, g: string)
    requires WellFormed(d) && Parse(d, c).Some? && NoLimits(d)
    ensures Normalize(d, c, long, skip).Some? && Parse(d, Normalize(d, c, long, skip).value).Some?
    ensures var p, r := Parse(d, c).value, Parse(d, Normalize(d, c, long, skip).value).value;
            g in r.groups <==> Asked(d, p.groups, r.subs, g) || (!skip && g in d.autoGroups && exists h :: Asked(d, p.groups, r.subs, h))
  {
    hide WellFormed, Parse, Normalize, BaseGroups, NamesOf, NoLimits, Asked;
    var names, base := GroupsBase(d, c, long, skip);
    var p, r := Parse(d, c).value, Parse(d, Normalize(d, c, long, skip).value).value;
    forall h ensures h in base <==> Asked(d, p.groups, r.subs, h) { RequiredBase(d, p.groups, names, r.subs, long, h); }
    if base != {} { var h :| h in base; assert Asked(d, p.groups, r.subs, h); }
  }

  /** The subgroups all let the group stay: none is limited to another one. */
  ghost predicate Allowed(d: Definition, groups: set<string>, subs: set<string>, long: bool, g: string) {
    g in groups && forall s | s in subs :: ParamsOf(d, s).limitedTo in {None, Some(Display(d.groups, g, long))}
  }

  lemma {:induction false} NothingAdded(d: Definition, subs: seq<string>)
    requires forall p :: ParamsOf(d, p).requireGroup.None?
    ensures Added(d, subs) == {}
  {
    if subs != [] {
      NothingAdded(d, subs[..|subs| - 1]);
      assert ParamsOf(d, subs[|subs| - 1]).requireGroup.None?;
    }
  }

  lemma KeptNames(d: Definition, names: seq<string>, subs: set<string>, g: string)
    requires GoodTable(d.subs) && SameParams(d, d.subs) && AllKnown(d.subs, Set(names)) && CanonSet(d.subs, Set(names)) == subs
    ensures Kept(d, names, g) <==> forall s | s in subs :: ParamsOf(d, s).limitedTo in {None, Some(g)}
  {
    KeptIs(d, names, g);
    forall x | x in Set(names) ensures Canon(d.subs, x) in subs && ParamsOf(d, Canon(d.subs, x)) == ParamsOf(d, x) {
      CanonParams(d, d.subs, x);
    }
    forall s | s in subs ensures exists x :: x in Set(names) && ParamsOf(d, x) == ParamsOf(d, s) {
      var x :| x in Set(names) && Canon(d.subs, x) == s;
      CanonParams(d, d.subs, x);
    }
  }

  lemma LimitedBase(d: Definition, groups: set<string>, names: seq<string>, subs: set<string>, long: bool, h: string)
    requires NamesOf(d, names, subs) && forall p :: ParamsOf(d, p).requireGroup.None?
    ensures h in BaseGroups(d, groups, names, long) <==> Allowed(d, groups, subs, long, h)
  {
    NothingAdded(d, names);
    KeptNames(d, names, subs, Display(d.groups, h, long));
    hide Added, Kept, GoodTable, CanonSet, Display;
  }

  /** Without require_group: the groups are those of the marking that no subgroup is limited away from,
      and, once there is one, those selected automatically. */
  lemma LimitedGroupsSay(d: Definition, c: string, long: bool, skip: bool, g: string)
    requires WellFormed(d) && Parse(d, c).Some? && forall p :: ParamsOf(d, p).requireGroup.None?
    ensures Normalize(d, c, long, skip).Some? && Parse(d, Normalize(d, c, long, skip).value).Some?
    ensures var p, r := Parse(d, c).value, Parse(d, Normalize(d, c, long, skip).value).value;
            g in r.groups <==> Allowed(d, p.groups, r.subs, long, g) || (!skip && g in d.autoGroups && exists h :: Allowed(d, p.groups, r.subs, long, h))
  {
    hide WellFormed, Parse, Normalize, BaseGroups, NamesOf, Allowed;
    var names, base := GroupsBase(d, c, long, skip);
    var p, r := Parse(d, c).value, Parse(d, Normalize(d, c, long, skip).value).value;
    forall h ensures h in base <==> Allowed(d, p.groups, r.subs, long, h) { LimitedBase(d, p.groups, names, r.subs, long, h); }
    if base != {} { var h :| h in base; assert Allowed(d, p.groups, r.subs, long, h); }
  }

  // ---- How it is printed -------------------------------------------------------------------------

  /** A single group is shown by its solitary name, or else behind REL TO. */
  function ShownAlone(d: Definition, g: string): string {
    match ParamsOf(d, g).solitary
    case Some(n) => if n != g then n else "REL TO " + g
    case None => "REL TO " + g
  }

  lemma OneOrder(d: Definition, x: string)
    requires forall s :: Lists(d.order(s), s)
    ensures d.order({x}) == [x] && d.order({}) == []
  {
    assert Lists(d.order({x}), {x}) && Lists(d.order({}), {});
    NoMembers(d.order({}));
    OneMember(d.order({x}), x);
  }

  lemma OneMember(v: seq<string>, x: string)
    requires Lists(v, {x})
    ensures v == [x]
  {
    assert |v| >= 2 ==> v[0] != v[1];
    assert x in {x};
    forall i | 0 <= i < |v| ensures v[i] == x { assert v[i] in v; }
  }

  /** A single required name, which is shown with the groups or in a section of its own. */
  lemma OneRequired(d: Definition, r: string)
    requires forall s :: Lists(d.order(s), s)
    ensures RequiredGroups(d, [r]) == if ParamsOf(d, r).requiredGroup then [r] else []
    ensures PlainRequired(d, [r]) == if ParamsOf(d, r).requiredGroup then [] else [r]
    ensures RequiredLevel(d, [r]) == Max(0, ParamsOf(d, r).requireLvl)
  {
    OneOrder(d, r);
    assert [r][..0] == [];
    assert Set([r]) == {r};
    if ParamsOf(d, r).requiredGroup {
      assert RequiredGroups(d, [r]) == [r];
      assert Set([r]) - Set([r]) == {};
    } else {
      assert RequiredGroups(d, [r]) == [];
      assert Set([r]) - Set([]) == {r};
    }
  }

  lemma NoRequired(d: Definition)
    requires forall s :: Lists(d.order(s), s)
    ensures RequiredGroups(d, []) == [] && PlainRequired(d, []) == [] && RequiredLevel(d, []) == 0
  {
    OneOrder(d, "");
    assert Set([]) - Set(RequiredGroups(d, [])) == {};
  }

  lemma JoinTwo(a: string, b: string, c: string)
    ensures JoinDouble([a]) == a && JoinDouble([a, b]) == a + "//" + b && JoinDouble([a, b, c]) == a + "//" + (b + "//" + c)
    ensures JoinWith([a], '/') == a && JoinWith([a, b], '/') == a + "/" + b
  {
    assert [a, b][1..] == [b] && [a, b, c][1..] == [b, c] && [b, c][1..] == [c];
    assert JoinWith([b], '/') == b && JoinDouble([b]) == b && JoinDouble([c]) == c;
    assert JoinDouble([b, c]) == b + "//" + c;
  }

  /** What follows the level of a marking with at most one required name and one group. */
  function Rest(d: Definition, req: seq<string>, groups: seq<string>): string
    requires |req| <= 1 && |groups| <= 1
  {
    (if req == [] then "" else "//" + req[0])
    + (if groups == [] then ""
       else (if req != [] && ParamsOf(d, req[0]).requiredGroup then "/" else "//") + ShownAlone(d, groups[0]))
  }

  /** Such a marking is printed as the level, then the required name, then the group, in sections of their
      own, unless the required name is one that is shown with the groups. */
  lemma PrintedSays(d: Definition, level: int, req: seq<string>, groups: seq<string>, long: bool)
    requires (forall s :: Lists(d.order(s), s)) && |req| <= 1 && |groups| <= 1
    ensures var need := if req == [] then 0 else ParamsOf(d, req[0]).requireLvl;
            var name, t := LevelText(d, Max(level, Max(0, need)), long), NormalText(d, Draft(level, req, groups, []), long, true);
            if name.None? then t.None? else t == Some(name.value + Rest(d, req, groups))
  {
    var l := Draft(level, req, groups, []);
    assert Settled(d, l, true) == Draft(Max(level, RequiredLevel(d, req)), req, groups, []);
    if req == [] { NoRequired(d); } else { OneRequired(d, req[0]); assert req == [req[0]]; }
    var name := LevelText(d, Max(level, RequiredLevel(d, req)), long);
    if name.Some? { BodySays(d, name.value, req, groups, Max(level, RequiredLevel(d, req)), long); }
    hide PlainRequired, RequiredGroups, RequiredLevel, GroupToken, LevelText, ShownAlone, Body, JoinDouble, Rest;
  }

  lemma TokenAlone(d: Definition, groups: seq<string>, long: bool)
    requires |groups| <= 1
    ensures TokenTexts(GroupToken(d, groups, long)) == if groups == [] then [] else [ShownAlone(d, groups[0])]
  {
    if groups != [] { assert JoinComma(groups) == groups[0]; }
  }

  /** The sections after the level. */
  function RestSections(d: Definition, req: seq<string>, groups: seq<string>): seq<string>
    requires |req| <= 1 && |groups| <= 1
  {
    if req == [] then (if groups == [] then [] else [ShownAlone(d, groups[0])])
    else if groups == [] then [req[0]]
    else if ParamsOf(d, req[0]).requiredGroup then [req[0] + "/" + ShownAlone(d, groups[0])]
    else [req[0], ShownAlone(d, groups[0])]
  }

  lemma SectionsSay(d: Definition, req: seq<string>, groups: seq<string>, level: int, long: bool)
    requires (forall s :: Lists(d.order(s), s)) && |req| <= 1 && |groups| <= 1
    ensures Body(d, Draft(level, req, groups, []), long) == RestSections(d, req, groups)
  {
    TokenAlone(d, groups, long);
    if req == [] { NoRequired(d); } else { OneRequired(d, req[0]); assert req == [req[0]]; }
    var plain, shown, g := PlainRequired(d, req), RequiredGroups(d, req), if groups == [] then [] else [ShownAlone(d, groups[0])];
    hide PlainRequired, RequiredGroups, GroupToken, ShownAlone, Section;
    assert Sorted(shown) == shown && Sorted([]) == [];
    assert shown + g + [] == shown + g;
    assert Body(d, Draft(level, req, groups, []), long) == Section(plain) + Section(shown + g);
    hide Body, Sorted;
    if req == [] {
      SectionOf(if g == [] then "" else g[0], "");
      assert shown + g == g;
    } else {
      SectionOf(req[0], if g == [] then "" else g[0]);
      assert shown + g == if ParamsOf(d, req[0]).requiredGroup then [req[0]] + g else g;
      if g != [] { SectionOf(g[0], ""); }
    }
  }

  lemma SectionOf(a: string, b: string)
    ensures Section([]) == [] && Section([a]) == [a] && Section([a] + [b]) == [a + "/" + b]
  {
    JoinTwo(a, b, "");
    assert [a] + [b] == [a, b];
  }

  lemma BodySays(d: Definition, name: string, req: seq<string>, groups: seq<string>, level: int, long: bool)
    requires (forall s :: Lists(d.order(s), s)) && |req| <= 1 && |groups| <= 1
    ensures JoinDouble([name] + Body(d, Draft(level, req, groups, []), long)) == name + Rest(d, req, groups)
  {
    SectionsSay(d, req, groups, level, long);
    hide Body, ShownAlone, JoinDouble;
    var r, g := if req == [] then "" else req[0], if groups == [] then "" else ShownAlone(d, groups[0]);
    JoinTwo(name, r, g);
    JoinTwo(name, g, "");
    JoinTwo(name, r + "/" + g, "");
    Associative(name, r, g);
  }

  lemma Associative(name: string, r: string, g: string)
    ensures name + ("//" + r + "/" + g) == name + "//" + (r + "/" + g)
    ensures name + (("//" + r) + ("/" + g)) == name + "//" + (r + "/" + g)
    ensures name + (("//" + r) + ("//" + g)) == name + "//" + (r + "//" + g)
    ensures name + (("//" + r) + "") == name + "//" + r && name + ("" + ("//" + g)) == name + "//" + g && name + ("" + "") == name
  {}

  /** Several groups are listed behind REL TO, in order; in short format an alias that alone stands for
      exactly these groups is shown instead. */
  lemma ListSays(d: Definition, groups: seq<string>, long: bool)
    requires |groups| >= 2
    ensures long ==> TokenTexts(GroupToken(d, groups, long)) == ["REL TO " + JoinComma(Sorted(groups))]
    ensures !long && (forall a | a in d.order(d.groups.aliases.Keys) :: !StandsFor(d, a, groups)) ==>
              TokenTexts(GroupToken(d, groups, long)) == ["REL TO " + JoinComma(Sorted(groups))]
  {
    if !long && forall a | a in d.order(d.groups.aliases.Keys) :: !StandsFor(d, a, groups) {
      NotCompressed(d, d.order(d.groups.aliases.Keys), groups);
    }
  }

  /** The alias is one for several groups, which are these, in order. */
  predicate StandsFor(d: Definition, a: string, groups: seq<string>) {
    var values := Get(d.groups.aliases, a, []);
    |values| > 1 && Sorted(values) == groups
  }

  lemma {:induction false} NotCompressed(d: Definition, aliases: seq<string>, groups: seq<string>)
    requires forall a | a in aliases :: !StandsFor(d, a, groups)
    ensures Compressed(d, aliases, groups) == groups
  {
    if aliases != [] {
      NotCompressed(d, aliases[..|aliases| - 1], groups);
      assert aliases[|aliases| - 1] in aliases;
    }
  }

  /** An alias is shown for its groups if no other alias stands for them. */
  lemma {:induction false} AliasSays(d: Definition, aliases: seq<string>, a: string, groups: seq<string>)
    requires a in aliases && StandsFor(d, a, groups)
    requires forall b | b in aliases && b != a :: !StandsFor(d, b, groups)
    requires forall i, j | 0 <= i < j < |aliases| :: aliases[i] != aliases[j]
    ensures Compressed(d, aliases, groups) == [a]
  {
    var front, last := aliases[..|aliases| - 1], aliases[|aliases| - 1];
    forall b | b in front ensures b in aliases {}
    if last == a {
      NotCompressed(d, front, groups);
    } else {
      AliasSays(d, front, a, groups);
      SortedLength(Get(d.groups.aliases, last, []));
    }
  }

  lemma {:induction false} SortedLength(xs: seq<string>)
    ensures |Sorted(xs)| == |xs|
  {
    if xs != [] {
      SortedLength(xs[1..]);
      InsertLength(xs[0], Sorted(xs[1..]));
    }
  }

  lemma {:induction false} InsertLength(x: string, xs: seq<string>)
    ensures |Insert(x, xs)| == |xs| + 1
  {
    if xs != [] && !Before(x, xs[0]) { InsertLength(x, xs[1..]); }
  }

  // ---- is_accessible -----------------------------------------------------------------------------

  /** A list of names restricts nobody if it is empty, and else whoever has none of them. */
  predicate Admits(user: set<string>, names: set<string>) {
    names == {} || exists x :: x in user && x in names
  }

  /** The operands of the access test, for every well-formed definition. */
  lemma AccessOperands(d: Definition, user: string, c: string)
    requires WellFormed(d) && Parse(d, user).Some? && Parse(d, c).Some?
    ensures Means(d, user, true) && Means(d, c, true)
    ensures Operands(d, user, c, true, true) == Some((Listed(d, Meant(d, user, true), true), Listed(d, Meant(d, c, true), true)))
    ensures GoodParts(d, Meant(d, user, true)) && GoodParts(d, Meant(d, c, true))
  {
    hide WellFormed, Parse, Normalize, Listed, GoodParts;
    Meaning(d, user, true);
    Meaning(d, c, true);
  }

  lemma AdmitsList(user: seq<string>, names: seq<string>, t: Names, a: set<string>, b: set<string>)
    requires GoodTable(t) && (forall s | s in a :: s in t.stl) && (forall s | s in b :: s in t.stl)
    requires Set(user) == DisplaySet(t, a, true) && Set(names) == DisplaySet(t, b, true)
    ensures CanSeeGroups(user, names) <==> Admits(a, b)
  {
    SeesList(user, names);
    DisplayOps(t, a, b, true);
    DisplayOps(t, a * b, b, true);
    DisplayOps(t, b, b, true);
    hide GoodTable, DisplaySet;
    if a * b != {} { var x :| x in a * b; assert x in a && x in b; }
    if exists x :: x in a && x in b { var x :| x in a && x in b; assert x in a * b; }
    assert DisplaySet(t, {}, true) == {} by { EmptyDisplay(t, true); }
  }

  /** Access is granted exactly if the user's level is high enough, all required names are held, and
      neither the groups nor the subgroups of the marking leave the user out; under every definition. */
  lemma AccessSays(d: Definition, user: string, c: string)
    requires WellFormed(d) && Parse(d, user).Some? && Parse(d, c).Some?
    ensures Means(d, user, true) && Means(d, c, true) && IsAccessible(d, user, Some(c)).Answer?
    ensures var u, p := Meant(d, user, true), Meant(d, c, true);
            IsAccessible(d, user, Some(c)).value
            <==> u.level >= p.level && (forall r | r in p.req :: r in u.req) && Admits(u.groups, p.groups) && Admits(u.subs, p.subs)
  {
    AccessOperands(d, user, c);
    var u, p := Meant(d, user, true), Meant(d, c, true);
    ListedParts(d, u, true);
    ListedParts(d, p, true);
    AdmitsList(Listed(d, u, true).groups, Listed(d, p, true).groups, d.groups, u.groups, p.groups);
    AdmitsList(Listed(d, u, true).subs, Listed(d, p, true).subs, d.subs, u.subs, p.subs);
    DisplayOps(d.req, p.req, u.req, true);
    hide GoodTable, GoodParams, Disjoint, GoodLevels, Parse, Normalize, Listed, DisplaySet, CanSeeGroups, Admits, Operands;
  }

  /** A marking restricted to subgroups, or groups, of which the user has none is refused. */
  lemma NoneOfThemIsRefused(d: Definition, user: string, c: string)
    requires WellFormed(d) && Parse(d, user).Some? && Parse(d, c).Some?
    ensures Means(d, user, true) && Means(d, c, true)
    ensures var u, p := Meant(d, user, true), Meant(d, c, true);
            (p.subs != {} && u.subs !! p.subs) || (p.groups != {} && u.groups !! p.groups) || !(p.req <= u.req) || u.level < p.level
            ==> IsAccessible(d, user, Some(c)) == Answer(false)
  {
    hide WellFormed, Parse, Normalize, IsAccessible;
    AccessSays(d, user, c);
  }

  // ---- max_classification, min_classification, intersect_user_classification -------------------

  /** Both lists of names are non-empty and have no name in common. */
  predicate Clash(a: set<string>, b: set<string>) {
    a != {} && b != {} && a !! b
  }

  /** The normalised level covers what the required names ask for. */
  lemma NormLevel(d: Definition, p: Parts, skip: bool)
    requires Sound(d) && GoodParts(d, p)
    ensures var n := Norm(d, p, skip); n.level >= LevelFor(d, n.req) && n.level >= 0
  {
    hide GoodTable, GoodParams, GoodLevels, LevelFor;
    LevelForMore(d, p.req, p.req);
  }

  /** What a combination of two markings says, name by name. */
  ghost predicate Strictest(a: Parts, b: Parts, r: Parts) {
    && r.level == (if a.level >= b.level then a.level else b.level)
    && (forall x :: x in r.req <==> x in a.req || x in b.req)
    && Shared(a.groups, b.groups, r.groups) && Shared(a.subs, b.subs, r.subs)
  }

  /** The names of both lists, or of the only one that has any. */
  ghost predicate Shared(a: set<string>, b: set<string>, r: set<string>) {
    forall x :: x in r <==> (x in a && (b == {} || x in b)) || (x in b && a == {})
  }

  ghost predicate Weakest(a: Parts, b: Parts, r: Parts) {
    && r.level == (if a.level <= b.level then a.level else b.level)
    && (forall x :: x in r.req <==> x in a.req && x in b.req)
    && Joined(a.groups, b.groups, r.groups) && Joined(a.subs, b.subs, r.subs)
  }

  /** The names of either list, or none if one of them is empty. */
  ghost predicate Joined(a: set<string>, b: set<string>, r: set<string>) {
    forall x :: x in r <==> a != {} && b != {} && (x in a || x in b)
  }

  ghost predicate Common(a: Parts, b: Parts, r: Parts) {
    && r.level == (if a.level <= b.level then a.level else b.level)
    && (forall x :: x in r.req <==> x in a.req && x in b.req)
    && (forall x :: x in r.groups <==> x in a.groups && x in b.groups)
    && (forall x :: x in r.subs <==> x in a.subs && x in b.subs)
  }

  lemma SharedBy(a: set<string>, b: set<string>, auto: seq<string>)
    requires AutoSet(a, auto, false) == a && AutoSet(b, auto, false) == b && !Clash(a, b)
    ensures MaxNames(a, b).Some? && Shared(a, b, AutoSet(MaxNames(a, b).value, auto, false))
  {
    if a != {} && b != {} {
      var x :| x in a && x in b;
      assert x in a * b;
    }
  }

  lemma JoinedBy(a: set<string>, b: set<string>, auto: seq<string>)
    requires AutoSet(a, auto, false) == a && AutoSet(b, auto, false) == b
    ensures Joined(a, b, AutoSet(MinNames(a, b), auto, false))
  {
    if a != {} && b != {} {
      var x, y :| x in a && y in b;
      assert x in a + b;
    }
  }

  lemma MeantPlain(d: Definition, c: string, skip: bool)
    requires WellFormed(d) && Plain(d) && Parse(d, c).Some?
    ensures Means(d, c, skip) && Meant(d, c, skip) == Norm(d, Parse(d, c).value, skip) && GoodParts(d, Meant(d, c, skip))
    ensures Norm(d, Meant(d, c, skip), skip) == Meant(d, c, skip)
    ensures Meant(d, c, skip).level >= LevelFor(d, Meant(d, c, skip).req)
  {
    hide WellFormed, Plain, Parse, Normalize, Normal, Norm, GoodParts, LevelFor;
    Meaning(d, c, skip);
    ParsedGood(d, c);
    PlainNormal(d, Parse(d, c).value, true, skip);
    SoundDefinition(d);
    NormFacts(d, Parse(d, c).value, skip);
    NormLevel(d, Parse(d, c).value, skip);
  }

  lemma JoinSays(d: Definition, a: Parts, b: Parts)
    requires Sound(d) && GoodParts(d, a) && GoodParts(d, b) && Norm(d, a, false) == a && Norm(d, b, false) == b
    requires a.level >= LevelFor(d, a.req) && b.level >= LevelFor(d, b.req)
    ensures if Clash(a.groups, b.groups) || Clash(a.subs, b.subs) then Join(d, a, b) == Parts(10001, {}, {}, {}) else Strictest(a, b, Join(d, a, b))
  {
    hide GoodTable, GoodParams, GoodLevels, LevelFor, Shared;
    LevelForUnion(d, a.req, b.req);
    if !Clash(a.groups, b.groups) && !Clash(a.subs, b.subs) {
      SharedBy(a.groups, b.groups, d.autoGroups);
      SharedBy(a.subs, b.subs, d.autoSubs);
    }
  }

  /** The maximum of two markings has the higher level, all required names, and the groups and subgroups
      that both allow; if they share none that both restrict to, it is INVALID. */
  lemma MaxSays(d: Definition, c1: string, c2: string, long: bool)
    requires WellFormed(d) && Plain(d) && Parse(d, c1).Some? && Parse(d, c2).Some?
    ensures Means(d, c1, false) && Means(d, c2, false)
    ensures var m, a, b := MaxClassification(d, Some(c1), Some(c2), long), Meant(d, c1, false), Meant(d, c2, false);
            && m.Answer? && m.value.Some? && Parse(d, m.value.value).Some?
            && var r := Parse(d, m.value.value).value;
               if Clash(a.groups, b.groups) || Clash(a.subs, b.subs) then m.value.value == "INVALID" && r == Parts(10001, {}, {}, {})
               else Strictest(a, b, r)
  {
    hide WellFormed, Plain, Parse, Normalize, Norm, GoodParts, LevelFor, Join, Strictest, MaxText;
    MeantPlain(d, c1, false);
    MeantPlain(d, c2, false);
    MaxTextIs(d, c1, c2, long);
    SoundDefinition(d);
    JoinSays(d, Meant(d, c1, false), Meant(d, c2, false));
    MaxClashes(d, c1, c2, long);
  }

  lemma MaxClashes(d: Definition, c1: string, c2: string, long: bool)
    requires WellFormed(d) && Plain(d) && Parse(d, c1).Some? && Parse(d, c2).Some? && Means(d, c1, false) && Means(d, c2, false)
    ensures var a, b := Meant(d, c1, false), Meant(d, c2, false);
            Clash(a.groups, b.groups) || Clash(a.subs, b.subs) ==> MaxText(d, c1, c2, long) == Some("INVALID")
  {
    hide GoodParams, Disjoint, GoodLevels, GoodTable, Plain, GoodParts, Norm, NormalText, Parse, Normalize, Listed, DisplaySet, Operands;
    MeantPlain(d, c1, false);
    MeantPlain(d, c2, false);
    OperandsAre(d, c1, c2, long, false);
    var p, q := Meant(d, c1, false), Meant(d, c2, false);
    ListedParts(d, p, long);
    ListedParts(d, q, long);
    PartsDisplay(d, p, q, long);
  }

  lemma MeetSays(d: Definition, a: Parts, b: Parts)
    requires Sound(d) && GoodParts(d, a) && GoodParts(d, b) && Norm(d, a, false) == a && Norm(d, b, false) == b
    requires a.level >= LevelFor(d, a.req) && b.level >= LevelFor(d, b.req)
    ensures Weakest(a, b, Meet(d, a, b))
  {
    hide GoodTable, GoodParams, GoodLevels, LevelFor, Joined;
    LevelForMore(d, a.req * b.req, a.req);
    LevelForMore(d, a.req * b.req, b.req);
    JoinedBy(a.groups, b.groups, d.autoGroups);
    JoinedBy(a.subs, b.subs, d.autoSubs);
  }

  /** The minimum of two markings has the lower level, the required names of both, and all their groups and
      subgroups, or none where one of them has none. */
  lemma MinSays(d: Definition, c1: string, c2: string, long: bool)
    requires WellFormed(d) && Plain(d) && Parse(d, c1).Some? && Parse(d, c2).Some?
    ensures Means(d, c1, false) && Means(d, c2, false)
    ensures var m := MinClassification(d, Some(c1), Some(c2), long);
            && m.Answer? && m.value.Some? && Parse(d, m.value.value).Some?
            && Weakest(Meant(d, c1, false), Meant(d, c2, false), Parse(d, m.value.value).value)
  {
    hide WellFormed, Plain, Parse, Normalize, Norm, GoodParts, LevelFor, Meet, Weakest, MinText;
    MeantPlain(d, c1, false);
    MeantPlain(d, c2, false);
    MinTextIs(d, c1, c2, long);
    SoundDefinition(d);
    MeetSays(d, Meant(d, c1, false), Meant(d, c2, false));
  }

  lemma CrossSays(d: Definition, a: Parts, b: Parts)
    requires Sound(d) && GoodParts(d, a) && GoodParts(d, b)
    requires a.level >= LevelFor(d, a.req) && b.level >= LevelFor(d, b.req)
    ensures Common(a, b, Cross(d, a, b))
  {
    hide GoodTable, GoodParams, GoodLevels, LevelFor;
    LevelForMore(d, a.req * b.req, a.req);
    LevelForMore(d, a.req * b.req, b.req);
  }

  /** The intersection of two users has the lower level, and the required names, groups and subgroups that
      both have. */
  lemma IntersectSays(d: Definition, u1: string, u2: string, long: bool)
    requires WellFormed(d) && Plain(d) && Parse(d, u1).Some? && Parse(d, u2).Some?
    ensures Means(d, u1, true) && Means(d, u2, true)
    ensures var m := IntersectUsers(d, Some(u1), Some(u2), long);
            && m.Answer? && m.value.Some? && Parse(d, m.value.value).Some? && Means(d, m.value.value, true)
            && Common(Meant(d, u1, true), Meant(d, u2, true), Parse(d, m.value.value).value)
            && Meant(d, m.value.value, true) == Parse(d, m.value.value).value
  {
    hide WellFormed, Plain, Parse, Normalize, Norm, GoodParts, LevelFor, Cross, Common, IntersectText;
    MeantPlain(d, u1, true);
    MeantPlain(d, u2, true);
    IntersectTextIs(d, u1, u2, long);
    SoundDefinition(d);
    CrossSays(d, Meant(d, u1, true), Meant(d, u2, true));
    MeantPlain(d, IntersectText(d, u1, u2, long).value, true);
    CrossNormal(d, Meant(d, u1, true), Meant(d, u2, true));
  }

  lemma CrossNormal(d: Definition, a: Parts, b: Parts)
    requires Sound(d) && GoodParts(d, a) && GoodParts(d, b)
    ensures Norm(d, Cross(d, a, b), true) == Cross(d, a, b)
  {
    hide GoodTable, GoodParams, GoodLevels, LevelFor;
  }

  /** The intersection sees exactly the markings that both users see by a group, and by a subgroup, that
      both of them have, where the marking has any. */
  lemma IntersectSeesExactly(d: Definition, u1: string, u2: string, c: string, long: bool)
    requires WellFormed(d) && Plain(d) && Parse(d, u1).Some? && Parse(d, u2).Some? && Parse(d, c).Some?
    ensures Means(d, u1, true) && Means(d, u2, true) && Means(d, c, true)
    ensures var m := IntersectUsers(d, Some(u1), Some(u2), long);
            && m.Answer? && m.value.Some?
            && var a, b, p := Meant(d, u1, true), Meant(d, u2, true), Meant(d, c, true);
               IsAccessible(d, m.value.value, Some(c)) == Answer(true)
               <==> && IsAccessible(d, u1, Some(c)) == Answer(true) && IsAccessible(d, u2, Some(c)) == Answer(true)
                    && (p.groups == {} || exists g :: g in a.groups && g in b.groups && g in p.groups)
                    && (p.subs == {} || exists g :: g in a.subs && g in b.subs && g in p.subs)
  {
    hide WellFormed, Plain, Parse, Normalize, IsAccessible, IntersectUsers;
    IntersectSays(d, u1, u2, long);
    AccessSays(d, u1, c);
    AccessSays(d, u2, c);
    AccessSays(d, IntersectUsers(d, Some(u1), Some(u2), long).value.value, c);
  }

  /** A marking without groups and subgroups that both users see is seen by their intersection. */
  lemma IntersectSeesShared(d: Definition, u1: string, u2: string, c: string, long: bool)
    requires WellFormed(d) && Plain(d) && Parse(d, u1).Some? && Parse(d, u2).Some? && Parse(d, c).Some?
    requires Means(d, c, true) && Meant(d, c, true).groups == {} && Meant(d, c, true).subs == {}
    requires IsAccessible(d, u1, Some(c)) == Answer(true) && IsAccessible(d, u2, Some(c)) == Answer(true)
    ensures var m := IntersectUsers(d, Some(u1), Some(u2), long);
            m.Answer? && m.value.Some? && IsAccessible(d, m.value.value, Some(c)) == Answer(true)
  {
    hide WellFormed, Plain, Parse, Normalize, IsAccessible, IntersectUsers;
    IntersectSeesExactly(d, u1, u2, c, long);
  }
}
