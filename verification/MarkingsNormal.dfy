/** Normalising a marking: what it does to the parts, and why once is enough. */
module MarkingsNormal {
  import opened Prelude
  import opened Text
  import opened Sorting
  import opened Markings
  import opened MarkingsParse

  // ---- Parts of well-formed markings ---------------------------------------------------------

  ghost predicate GoodParts(d: Definition, p: Parts) {
    && p.level in d.levelShort
    && (forall r | r in p.req :: r in d.req.stl)
    && (forall g | g in p.groups :: g in d.groups.stl)
    && (forall s | s in p.subs :: s in d.subs.stl)
  }

  lemma ShortsAreShort(t: Names, pieces: set<string>)
    requires GoodTable(t)
    ensures forall s | s in ShortsOfAll(t, pieces) :: s in t.stl
  {}

  lemma ParsedGood(d: Definition, c: string)
    requires WellFormed(d) && Parse(d, c).Some?
    ensures GoodParts(d, Parse(d, c).value)
  {
    hide GoodTable, GoodParams, Disjoint, ShortsOfAll, Pieces, AllGroupPieces;
    ShortsAreShort(d.req, Pieces(Upper(c)));
    var pieces := AllGroupPieces(SplitDouble(Upper(c)));
    ShortsAreShort(d.groups, pieces);
    ShortsAreShort(d.subs, set p | p in pieces && !Named(d.groups, p));
    assert LevelNamed(d, SplitDouble(Upper(c))[0]).Some?;
  }

  lemma DisplayCanon(t: Names, shorts: set<string>, long: bool)
    requires GoodTable(t) && forall s | s in shorts :: s in t.stl
    ensures AllKnown(t, DisplaySet(t, shorts, long)) && CanonSet(t, DisplaySet(t, shorts, long)) == shorts
    ensures DisplaySet(t, shorts, long) == {} <==> shorts == {}
  {
    forall s | s in shorts ensures Canon(t, Display(t, s, long)) == s && Display(t, s, long) in DisplaySet(t, shorts, long) {}
  }

  lemma CanonKnown(t: Names, xs: set<string>)
    requires GoodTable(t) && AllKnown(t, xs)
    ensures forall s | s in CanonSet(t, xs) :: s in t.stl
  {}

  lemma ListedGood(d: Definition, p: Parts, long: bool)
    requires WellFormed(d) && GoodParts(d, p)
    ensures GoodDraft(d, Listed(d, p, long))
  {
    hide GoodTable, GoodParams, Disjoint, GoodLevels, DisplaySet, Listing;
    DisplayCanon(d.req, p.req, long);
    DisplayCanon(d.groups, p.groups, long);
    DisplayCanon(d.subs, p.subs, long);
    ListingSet(d, DisplaySet(d.req, p.req, long));
    ListingSet(d, DisplaySet(d.groups, p.groups, long));
    ListingSet(d, DisplaySet(d.subs, p.subs, long));
  }

  /** Normalisation, on parts. */
  function Normal(d: Definition, p: Parts, long: bool, skip: bool): Parts {
    PartsOf(d, Settled(d, Listed(d, p, long), skip))
  }

  lemma NormalGood(d: Definition, p: Parts, long: bool, skip: bool)
    requires WellFormed(d) && GoodParts(d, p)
    ensures GoodParts(d, Normal(d, p, long, skip))
  {
    hide GoodTable, GoodParams, Disjoint, GoodLevels, Settled, Listed, CanonSet;
    ListedGood(d, p, long);
    var s := Settled(d, Listed(d, p, long), skip);
    SettledGood(d, Listed(d, p, long), skip);
    CanonKnown(d.req, Set(s.req));
    CanonKnown(d.groups, Set(s.groups));
    CanonKnown(d.subs, Set(s.subs));
  }

  /** The parts of a normalised marking are the normalised parts of the marking. */
  lemma NormalizedParts(d: Definition, c: string, long: bool, skip: bool)
    requires WellFormed(d) && Parse(d, c).Some?
    ensures var t := Normalize(d, c, long, skip);
            t.Some? && Parse(d, t.value) == Some(Normal(d, Parse(d, c).value, long, skip))
  {
    hide WellFormed, Parse, NormalText, Settled, PartsOf, GoodParts;
    var p := Parse(d, c).value;
    ParsedGood(d, c);
    ListedGood(d, p, long);
    ParsePrint(d, Listed(d, p, long), long, skip);
  }

  /** A marking that says exactly `p`. */
  function Written(d: Definition, p: Parts, long: bool): string {
    JoinDouble([LevelText(d, p.level, long).GetOr("")] + Body(d, Listed(d, p, long), long))
  }

  lemma WrittenParses(d: Definition, p: Parts, long: bool)
    requires WellFormed(d) && GoodParts(d, p)
    ensures Parse(d, Written(d, p, long)) == Some(p)
  {
    hide GoodTable, GoodParams, Disjoint, GoodLevels, Body, Parse, DisplaySet, Listing, CanonSet;
    ListedGood(d, p, long);
    LevelPrinted(d, p.level, long);
    BodyParses(d, Listed(d, p, long), LevelText(d, p.level, long).value, long);
    DisplayCanon(d.req, p.req, long);
    DisplayCanon(d.groups, p.groups, long);
    DisplayCanon(d.subs, p.subs, long);
    ListingSet(d, DisplaySet(d.req, p.req, long));
    ListingSet(d, DisplaySet(d.groups, p.groups, long));
    ListingSet(d, DisplaySet(d.subs, p.subs, long));
  }

  // ---- The algebra of the subgroups' demands -------------------------------------------------

  /** What a run of subgroups adds to the groups whatever these are. */
  function Added(d: Definition, subs: seq<string>): set<string> {
    if subs == [] then {}
    else
      var p := ParamsOf(d, subs[|subs| - 1]);
      var more := Added(d, subs[..|subs| - 1]) + if p.requireGroup.Some? then {p.requireGroup.value} else {};
      if p.limitedTo.Some? then more * {p.limitedTo.value} else more
  }

  /** Whether a run of subgroups lets a group stay that is there. */
  predicate Kept(d: Definition, subs: seq<string>, g: string) {
    subs == []
    || (Kept(d, subs[..|subs| - 1], g)
        && ParamsOf(d, subs[|subs| - 1]).limitedTo in {None, Some(g)})
  }

  /** However require_group and limited_to_group interact along the list, their joint effect is to
      keep some groups and to add some. */
  lemma {:induction false} DemandsAlgebra(d: Definition, subs: seq<string>, groups: seq<string>, g: string)
    ensures g in Demands(d, subs, groups) <==> (g in groups && Kept(d, subs, g)) || g in Added(d, subs)
  {
    if subs != [] {
      var front := subs[..|subs| - 1];
      DemandsAlgebra(d, front, groups, g);
      var p := ParamsOf(d, subs[|subs| - 1]);
      if p.limitedTo.Some? { DemandsAlgebra(d, front, groups, p.limitedTo.value); }
    }
  }

  lemma {:induction false} AddedShort(d: Definition, subs: seq<string>)
    requires GoodParams(d)
    ensures forall g | g in Added(d, subs) :: g in d.groups.stl
  {
    if subs != [] {
      AddedShort(d, subs[..|subs| - 1]);
      assert GoodParam(d, subs[|subs| - 1], ParamsOf(d, subs[|subs| - 1]));
    }
  }

  // ---- Normalising groups --------------------------------------------------------------------

  /** Short names after an automatic selection. */
  function AutoSet(names: set<string>, auto: seq<string>, skip: bool): set<string> {
    if names != {} && auto != [] && !skip then names + Set(auto) else names
  }

  lemma WithAutoSet(d: Definition, names: seq<string>, auto: seq<string>, skip: bool)
    requires forall s :: Lists(d.order(s), s)
    ensures Set(WithAuto(d, names, auto, skip)) == AutoSet(Set(names), auto, skip)
  {
    ListingSet(d, Set(names) + Set(auto));
    if |names| > 0 { assert names[0] in Set(names); }
  }

  lemma AutoCanon(t: Names, names: set<string>, auto: seq<string>, skip: bool)
    requires GoodTable(t) && forall a | a in auto :: a in t.stl
    ensures CanonSet(t, AutoSet(names, auto, skip)) == AutoSet(CanonSet(t, names), auto, skip)
  {
    var now := AutoSet(names, auto, skip);
    if names != {} {
      var n :| n in names;
      assert Canon(t, n) in CanonSet(t, names);
    }
    forall s ensures s in CanonSet(t, now) <==> s in AutoSet(CanonSet(t, names), auto, skip) {
      if s in Set(auto) && s in now { ShortIsItself(t, s); }
      if s in CanonSet(t, now) {
        var x :| x in now && Canon(t, x) == s;
        if x in Set(auto) { ShortIsItself(t, x); }
      }
    }
  }

  /** The groups a marking ends up with, by short names, under the demands of `subs`. */
  function NormalGroups(d: Definition, groups: set<string>, subs: seq<string>, long: bool, skip: bool): set<string> {
    AutoSet((set g | g in groups && Kept(d, subs, Display(d.groups, g, long))) + Added(d, subs), d.autoGroups, skip)
  }

  lemma GroupsSettle(d: Definition, groups: set<string>, subs: seq<string>, long: bool, skip: bool)
    requires GoodTable(d.groups) && GoodParams(d) && (forall s :: Lists(d.order(s), s))
    requires (forall g | g in groups :: g in d.groups.stl) && forall a | a in d.autoGroups :: a in d.groups.stl
    ensures var raw := Demands(d, subs, Listing(d, DisplaySet(d.groups, groups, long)));
            CanonSet(d.groups, Set(WithAuto(d, raw, d.autoGroups, skip))) == NormalGroups(d, groups, subs, long, skip)
  {
    hide Listing, GoodParams, WithAuto, AutoSet;
    var x := DisplaySet(d.groups, groups, long);
    ListingSet(d, x);
    var raw := Demands(d, subs, Listing(d, x));
    AddedShort(d, subs);
    var out := (set g | g in groups && Kept(d, subs, Display(d.groups, g, long))) + Added(d, subs);
    forall s ensures s in CanonSet(d.groups, Set(raw)) <==> s in out {
      DemandedCanon(d, groups, subs, long, s);
    }
    assert CanonSet(d.groups, Set(raw)) == out;
    WithAutoSet(d, raw, d.autoGroups, skip);
    AutoCanon(d.groups, Set(raw), d.autoGroups, skip);
  }

  lemma DemandedCanon(d: Definition, groups: set<string>, subs: seq<string>, long: bool, s: string)
    requires GoodTable(d.groups) && (forall x :: Lists(d.order(x), x))
    requires (forall g | g in groups :: g in d.groups.stl) && forall g | g in Added(d, subs) :: g in d.groups.stl
    ensures var raw := Demands(d, subs, Listing(d, DisplaySet(d.groups, groups, long)));
            s in CanonSet(d.groups, Set(raw))
            <==> (s in groups && Kept(d, subs, Display(d.groups, s, long))) || s in Added(d, subs)
  {
    hide Listing, Kept, Added, Demands;
    var x := DisplaySet(d.groups, groups, long);
    ListingSet(d, x);
    var raw := Demands(d, subs, Listing(d, x));
    if s in CanonSet(d.groups, Set(raw)) {
      var r :| r in Set(raw) && Canon(d.groups, r) == s;
      DemandsAlgebra(d, subs, Listing(d, x), r);
      if r in Added(d, subs) {
        ShortIsItself(d.groups, r);
      } else {
        assert r in Set(Listing(d, x));
        var g :| g in groups && Display(d.groups, g, long) == r;
      }
    }
    if s in Added(d, subs) {
      DemandsAlgebra(d, subs, Listing(d, x), s);
      ShortIsItself(d.groups, s);
      assert s in Set(raw);
    }
    if s in groups && Kept(d, subs, Display(d.groups, s, long)) {
      var r := Display(d.groups, s, long);
      DemandsAlgebra(d, subs, Listing(d, x), r);
      assert r in Set(Listing(d, x)) && r in Set(raw) && Canon(d.groups, r) == s;
    }
  }

  /** Two lists of subgroups with the same joint effect. */
  ghost predicate SameDemands(d: Definition, xs: seq<string>, ys: seq<string>) {
    Added(d, xs) == Added(d, ys) && forall g :: Kept(d, xs, g) <==> Kept(d, ys, g)
  }

  /** Keeping, adding and selecting automatically once is enough. */
  lemma GroupsTwice(d: Definition, groups: set<string>, xs: seq<string>, ys: seq<string>, long: bool, skip: bool)
    requires SameDemands(d, xs, ys)
    ensures var once := NormalGroups(d, groups, xs, long, skip);
            NormalGroups(d, once, ys, long, skip) == once
  {
    hide Kept, Added;
    var once := NormalGroups(d, groups, xs, long, skip);
    var kept := (set g | g in groups && Kept(d, xs, Display(d.groups, g, long)));
    var again := (set g | g in once && Kept(d, ys, Display(d.groups, g, long)));
    assert kept <= again;
    assert kept + Added(d, xs) != {} ==> again + Added(d, ys) != {};
  }

  /** When normalising groups once under `xs` and then under `ys` changes nothing more: what `xs`
      added may stay, is added again or is selected automatically; what `ys` adds is there already;
      and if there is anything at all, something is left to select automatically for. */
  ghost predicate Repeats(d: Definition, groups: set<string>, xs: seq<string>, ys: seq<string>, long: bool, skip: bool) {
    var kept := set g | g in groups && Kept(d, xs, Display(d.groups, g, long));
    var auto := if skip then {} else Set(d.autoGroups);
    if kept + Added(d, xs) == {} then Added(d, ys) == {}
    else
      && (forall g | g in Added(d, xs) :: g in Added(d, ys) || g in auto || Kept(d, xs, Display(d.groups, g, long)))
      && Added(d, ys) <= kept + Added(d, xs) + auto
      && (kept != {} || Added(d, ys) != {} || exists g :: g in Added(d, xs) + auto && Kept(d, xs, Display(d.groups, g, long)))
  }

  /** Whether a run of subgroups lets a group stay does not depend on their order. */
  lemma {:induction false} KeptIs(d: Definition, subs: seq<string>, g: string)
    ensures Kept(d, subs, g) <==> forall s | s in Set(subs) :: ParamsOf(d, s).limitedTo in {None, Some(g)}
  {
    if subs != [] {
      var front, last := subs[..|subs| - 1], subs[|subs| - 1];
      KeptIs(d, front, g);
      assert Set(subs) == Set(front) + {last};
    }
  }

  /** Lists of the same subgroups, by whatever names, let the same groups stay. */
  lemma KeptCanon(d: Definition, xs: seq<string>, ys: seq<string>, g: string)
    requires GoodTable(d.subs) && SameParams(d, d.subs)
    requires AllKnown(d.subs, Set(xs)) && AllKnown(d.subs, Set(ys)) && CanonSet(d.subs, Set(xs)) == CanonSet(d.subs, Set(ys))
    ensures Kept(d, xs, g) <==> Kept(d, ys, g)
  {
    KeptIs(d, xs, g);
    KeptIs(d, ys, g);
    forall x | x in Set(xs) ensures exists y :: y in Set(ys) && ParamsOf(d, y) == ParamsOf(d, x) { SameSub(d, Set(xs), Set(ys), x); }
    forall y | y in Set(ys) ensures exists x :: x in Set(xs) && ParamsOf(d, x) == ParamsOf(d, y) { SameSub(d, Set(ys), Set(xs), y); }
  }

  lemma SameSub(d: Definition, xs: set<string>, ys: set<string>, x: string)
    requires GoodTable(d.subs) && SameParams(d, d.subs) && x in xs
    requires AllKnown(d.subs, xs) && AllKnown(d.subs, ys) && CanonSet(d.subs, xs) == CanonSet(d.subs, ys)
    ensures exists y :: y in ys && ParamsOf(d, y) == ParamsOf(d, x)
  {
    assert Canon(d.subs, x) in CanonSet(d.subs, xs);
    var y :| y in ys && Canon(d.subs, y) == Canon(d.subs, x);
    CanonParams(d, d.subs, x);
    CanonParams(d, d.subs, y);
  }

  lemma CanonParams(d: Definition, t: Names, x: string)
    requires GoodTable(t) && SameParams(d, t)
    ensures ParamsOf(d, x) == ParamsOf(d, Canon(t, x))
  {
    if x in t.lts { assert t.lts[x] in t.stl && t.stl[t.lts[x]] == x; }
  }

  lemma GroupsTwiceExactly(d: Definition, groups: set<string>, xs: seq<string>, ys: seq<string>, long: bool, skip: bool)
    requires forall g :: Kept(d, xs, g) <==> Kept(d, ys, g)
    ensures var once := NormalGroups(d, groups, xs, long, skip);
            NormalGroups(d, once, ys, long, skip) == once <==> Repeats(d, groups, xs, ys, long, skip)
  {
    hide Kept, Added, Display;
    var once := NormalGroups(d, groups, xs, long, skip);
    var kept := set g | g in groups && Kept(d, xs, Display(d.groups, g, long));
    var again := set g | g in once && Kept(d, ys, Display(d.groups, g, long));
    var auto := if skip then {} else Set(d.autoGroups);
    assert auto == {} ==> skip || d.autoGroups == [] by {
      if !skip && d.autoGroups != [] { assert d.autoGroups[0] in auto; }
    }
    assert once == if kept + Added(d, xs) == {} then {} else kept + Added(d, xs) + auto;
    assert NormalGroups(d, once, ys, long, skip) == if again + Added(d, ys) == {} then {} else again + Added(d, ys) + auto;
    assert kept <= again;
    if kept + Added(d, xs) != {} {
      var some := exists g :: g in Added(d, xs) + auto && Kept(d, xs, Display(d.groups, g, long));
      if some {
        var g :| g in Added(d, xs) + auto && Kept(d, xs, Display(d.groups, g, long));
        assert g in again;
      }
      assert again + Added(d, ys) == {} <==> kept == {} && Added(d, ys) == {} && !some by {
        if g :| g in again { assert g in kept || g in Added(d, xs) + auto; }
      }
      assert again + Added(d, ys) + auto == once
             <==> Added(d, ys) <= once && forall g | g in Added(d, xs) :: g in Added(d, ys) || g in auto || g in again;
    }
  }

  // ---- Normalising subgroups -----------------------------------------------------------------

  /** The list of subgroups whose demands count. */
  function SubList(d: Definition, subs: set<string>, long: bool, skip: bool): seq<string> {
    WithAuto(d, Listing(d, DisplaySet(d.subs, subs, long)), d.autoSubs, skip)
  }

  lemma SubsSettle(d: Definition, subs: set<string>, long: bool, skip: bool)
    requires GoodTable(d.subs) && (forall s :: Lists(d.order(s), s))
    requires (forall s | s in subs :: s in d.subs.stl) && forall a | a in d.autoSubs :: a in d.subs.stl
    ensures CanonSet(d.subs, Set(SubList(d, subs, long, skip))) == AutoSet(subs, d.autoSubs, skip)
  {
    hide Listing, WithAuto, AutoSet, GoodTable;
    var x := DisplaySet(d.subs, subs, long);
    ListingSet(d, x);
    WithAutoSet(d, Listing(d, x), d.autoSubs, skip);
    AutoCanon(d.subs, x, d.autoSubs, skip);
    DisplayCanon(d.subs, subs, long);
  }

  /** The definition has no subgroup with limited_to_group. */
  ghost predicate NoLimits(d: Definition) {
    forall p :: ParamsOf(d, p).limitedTo.None?
  }

  /** In short format always; in long format when automatic selection adds no subgroup. */
  predicate SubsSettled(d: Definition, subs: set<string>, long: bool, skip: bool) {
    !long || skip || subs == {} || Set(d.autoSubs) <= subs
  }

  lemma SubListIs(d: Definition, subs: set<string>, long: bool, skip: bool)
    requires GoodTable(d.subs) && (forall s :: Lists(d.order(s), s)) && forall s | s in subs :: s in d.subs.stl
    ensures var x := DisplaySet(d.subs, subs, long);
            SubList(d, subs, long, skip)
            == Listing(d, if subs != {} && d.autoSubs != [] && !skip then x + Set(d.autoSubs) else x)
  {
    hide Listing, GoodTable, DisplaySet;
    DisplayCanon(d.subs, subs, long);
    ListingSet(d, DisplaySet(d.subs, subs, long));
  }

  lemma DisplayShort(t: Names, shorts: set<string>)
    ensures DisplaySet(t, shorts, false) == shorts
  {}

  lemma SubListTwice(d: Definition, subs: set<string>, long: bool, skip: bool)
    requires SubsSettled(d, subs, long, skip) && GoodTable(d.subs) && (forall s :: Lists(d.order(s), s))
    requires (forall s | s in subs :: s in d.subs.stl) && forall a | a in d.autoSubs :: a in d.subs.stl
    ensures SubList(d, AutoSet(subs, d.autoSubs, skip), long, skip) == SubList(d, subs, long, skip)
  {
    hide Listing, GoodTable, DisplaySet, SubList;
    var after := AutoSet(subs, d.autoSubs, skip);
    if after != subs {
      SubListIs(d, subs, long, skip);
      SubListIs(d, after, long, skip);
      if !long {
        DisplayShort(d.subs, subs);
        DisplayShort(d.subs, after);
        assert after + Set(d.autoSubs) == subs + Set(d.autoSubs);
      }
    }
  }

  lemma {:induction false} NoLimitsAdd(d: Definition, subs: seq<string>)
    requires NoLimits(d)
    ensures forall g :: Kept(d, subs, g)
    ensures forall g :: g in Added(d, subs) <==> Demanded(d, Set(subs), g)
  {
    if subs != [] {
      var front, last := subs[..|subs| - 1], subs[|subs| - 1];
      NoLimitsAdd(d, front);
      assert ParamsOf(d, last).limitedTo.None?;
      forall g ensures g in Added(d, subs) <==> Demanded(d, Set(subs), g) {
        if Demanded(d, Set(front), g) {
          var s :| s in Set(front) && ParamsOf(d, s).requireGroup == Some(g);
          assert s in Set(subs);
        }
        if ParamsOf(d, last).requireGroup == Some(g) { assert last in Set(subs); }
        if Demanded(d, Set(subs), g) {
          var s :| s in Set(subs) && ParamsOf(d, s).requireGroup == Some(g);
          assert s == last || s in Set(front);
        }
      }
    }
  }

  ghost predicate Demanded(d: Definition, subs: set<string>, g: string) {
    exists s :: s in subs && ParamsOf(d, s).requireGroup == Some(g)
  }

  lemma CanonDemands(d: Definition, xs: set<string>, g: string)
    requires GoodTable(d.subs) && SameParams(d, d.subs) && AllKnown(d.subs, xs)
    ensures Demanded(d, xs, g) <==> Demanded(d, CanonSet(d.subs, xs), g)
  {
    forall x | x in xs ensures ParamsOf(d, x) == ParamsOf(d, Canon(d.subs, x)) && Canon(d.subs, x) in CanonSet(d.subs, xs) {
      if x in d.subs.lts { assert d.subs.lts[x] in d.subs.stl && d.subs.stl[d.subs.lts[x]] == x; }
    }
    if Demanded(d, xs, g) {
      var x :| x in xs && ParamsOf(d, x).requireGroup == Some(g);
      assert Canon(d.subs, x) in CanonSet(d.subs, xs);
    }
    if Demanded(d, CanonSet(d.subs, xs), g) {
      var s :| s in CanonSet(d.subs, xs) && ParamsOf(d, s).requireGroup == Some(g);
      var x :| x in xs && Canon(d.subs, x) == s;
    }
  }

  /** Without limits the order in which subgroups are listed does not matter. */
  lemma NoLimitsSame(d: Definition, xs: seq<string>, ys: seq<string>)
    requires NoLimits(d) && GoodTable(d.subs) && SameParams(d, d.subs)
    requires AllKnown(d.subs, Set(xs)) && AllKnown(d.subs, Set(ys)) && CanonSet(d.subs, Set(xs)) == CanonSet(d.subs, Set(ys))
    ensures SameDemands(d, xs, ys)
  {
    hide GoodTable, SameParams, Demanded;
    NoLimitsAdd(d, xs);
    NoLimitsAdd(d, ys);
    forall g ensures g in Added(d, xs) <==> g in Added(d, ys) {
      CanonDemands(d, Set(xs), g);
      CanonDemands(d, Set(ys), g);
    }
  }

  // ---- Normalising twice ---------------------------------------------------------------------

  /** What normalisation makes of each part. */
  lemma NormalIs(d: Definition, p: Parts, long: bool, skip: bool)
    requires WellFormed(d) && GoodParts(d, p)
    ensures Normal(d, p, long, skip)
            == Parts(Max(p.level, RequiredLevel(d, Listing(d, DisplaySet(d.req, p.req, long)))), p.req,
                     NormalGroups(d, p.groups, SubList(d, p.subs, long, skip), long, skip),
                     AutoSet(p.subs, d.autoSubs, skip))
  {
    hide GoodTable, GoodParams, GoodLevels, Disjoint, Listing, DisplaySet, CanonSet, WithAuto, Demands, NormalGroups, AutoSet,
         RequiredLevel;
    DisplayCanon(d.req, p.req, long);
    ListingSet(d, DisplaySet(d.req, p.req, long));
    SubsSettle(d, p.subs, long, skip);
    GroupsSettle(d, p.groups, SubList(d, p.subs, long, skip), long, skip);
  }

  /** The subgroup lists of a first and a second normalisation demand the same. */
  lemma DemandsTwice(d: Definition, subs: set<string>, long: bool, skip: bool)
    requires WellFormed(d) && forall s | s in subs :: s in d.subs.stl
    requires SubsSettled(d, subs, long, skip) || NoLimits(d)
    ensures SameDemands(d, SubList(d, subs, long, skip), SubList(d, AutoSet(subs, d.autoSubs, skip), long, skip))
  {
    hide GoodTable, GoodLevels, Disjoint, SubList, SubsSettled, CanonSet, NoLimits, SameParams;
    if SubsSettled(d, subs, long, skip) {
      SubListTwice(d, subs, long, skip);
    } else {
      var after := AutoSet(subs, d.autoSubs, skip);
      SubsSettle(d, subs, long, skip);
      SubsSettle(d, after, long, skip);
      assert AutoSet(after, d.autoSubs, skip) == after;
      SubListKnown(d, subs, long, skip);
      SubListKnown(d, after, long, skip);
      NoLimitsSame(d, SubList(d, subs, long, skip), SubList(d, after, long, skip));
    }
  }

  lemma SubListKnown(d: Definition, subs: set<string>, long: bool, skip: bool)
    requires WellFormed(d) && forall s | s in subs :: s in d.subs.stl
    ensures AllKnown(d.subs, Set(SubList(d, subs, long, skip)))
  {
    hide GoodLevels, Disjoint, GoodParams, GoodTable, Listing, DisplaySet, WithAuto;
    DisplayCanon(d.subs, subs, long);
    ListingSet(d, DisplaySet(d.subs, subs, long));
    AutoKnown(d, d.subs, Listing(d, DisplaySet(d.subs, subs, long)), d.autoSubs, skip);
  }

  lemma NormalTwice(d: Definition, p: Parts, long: bool, skip: bool)
    requires WellFormed(d) && GoodParts(d, p)
    requires SubsSettled(d, p.subs, long, skip) || NoLimits(d)
    ensures Normal(d, Normal(d, p, long, skip), long, skip) == Normal(d, p, long, skip)
  {
    hide GoodTable, GoodParams, GoodLevels, Disjoint, Listing, DisplaySet, NormalGroups, Normal, SameDemands, SubList, RequiredLevel,
         SubsSettled, NoLimits;
    var once := Normal(d, p, long, skip);
    NormalGood(d, p, long, skip);
    NormalIs(d, p, long, skip);
    NormalIs(d, once, long, skip);
    DemandsTwice(d, p.subs, long, skip);
    GroupsTwice(d, p.groups, SubList(d, p.subs, long, skip), SubList(d, once.subs, long, skip), long, skip);
  }

  /** The lists of subgroups, first and second time, name the same subgroups. */
  lemma SubListsCanon(d: Definition, subs: set<string>, long: bool, skip: bool, g: string)
    requires WellFormed(d) && forall s | s in subs :: s in d.subs.stl
    ensures Kept(d, SubList(d, subs, long, skip), g) <==> Kept(d, SubList(d, AutoSet(subs, d.autoSubs, skip), long, skip), g)
  {
    hide GoodTable, GoodLevels, Disjoint, SubList, CanonSet, SameParams, Kept;
    var after := AutoSet(subs, d.autoSubs, skip);
    SubsSettle(d, subs, long, skip);
    SubsSettle(d, after, long, skip);
    assert AutoSet(after, d.autoSubs, skip) == after;
    SubListKnown(d, subs, long, skip);
    SubListKnown(d, after, long, skip);
    KeptCanon(d, SubList(d, subs, long, skip), SubList(d, after, long, skip), g);
  }

  lemma NormalTwiceExactly(d: Definition, p: Parts, long: bool, skip: bool)
    requires WellFormed(d) && GoodParts(d, p)
    ensures Normal(d, Normal(d, p, long, skip), long, skip) == Normal(d, p, long, skip) <==> Stable(d, p, long, skip)
  {
    hide GoodTable, GoodParams, GoodLevels, Disjoint, Listing, DisplaySet, NormalGroups, Normal, SubList, RequiredLevel,
         Repeats, Kept;
    var once := Normal(d, p, long, skip);
    NormalGood(d, p, long, skip);
    NormalIs(d, p, long, skip);
    NormalIs(d, once, long, skip);
    var xs, ys := SubList(d, p.subs, long, skip), SubList(d, once.subs, long, skip);
    forall g ensures Kept(d, xs, g) <==> Kept(d, ys, g) { SubListsCanon(d, p.subs, long, skip, g); }
    GroupsTwiceExactly(d, p.groups, xs, ys, long, skip);
  }

  /** The lists of subgroups that a first and a second normalisation go through agree on what they add. */
  ghost predicate Stable(d: Definition, p: Parts, long: bool, skip: bool) {
    Repeats(d, p.groups, SubList(d, p.subs, long, skip), SubList(d, AutoSet(p.subs, d.autoSubs, skip), long, skip), long, skip)
  }

  /** Exactly when normalising a marking a second time changes nothing it says. */
  lemma NormalizeTwiceExactly(d: Definition, c: string, long: bool, skip: bool)
    requires WellFormed(d) && Parse(d, c).Some?
    ensures var once := Normalize(d, c, long, skip);
            && once.Some? && Parse(d, once.value).Some?
            && var twice := Normalize(d, once.value, long, skip);
            && twice.Some?
            && (Parse(d, twice.value) == Parse(d, once.value) <==> Stable(d, Parse(d, c).value, long, skip))
  {
    hide WellFormed, Parse, Normalize, Normal, Stable, GoodParts;
    ParsedGood(d, c);
    NormalizedParts(d, c, long, skip);
    var once := Normalize(d, c, long, skip).value;
    NormalizedParts(d, once, long, skip);
    NormalTwiceExactly(d, Parse(d, c).value, long, skip);
  }

  /** Normalising a marking a second time changes nothing it says.  In short format this holds of
      every well-formed definition, with any mix of level raising, automatic selection,
      require_group, limited_to_group, solitary names and group aliases.  In long format it holds
      when the marking already has the automatically selected subgroups (or none at all, or they
      are skipped), or when no subgroup has limited_to_group. */
  lemma NormalizeTwice(d: Definition, c: string, long: bool, skip: bool)
    requires WellFormed(d) && Parse(d, c).Some?
    requires SubsSettled(d, Parse(d, c).value.subs, long, skip) || NoLimits(d)
    ensures var once := Normalize(d, c, long, skip);
            && once.Some? && Parse(d, once.value).Some?
            && var twice := Normalize(d, once.value, long, skip);
            && twice.Some? && Parse(d, twice.value) == Parse(d, once.value)
  {
    hide WellFormed, Parse, Normalize, Normal, SubsSettled, NoLimits, GoodParts;
    ParsedGood(d, c);
    NormalizedParts(d, c, long, skip);
    var once := Normalize(d, c, long, skip).value;
    NormalizedParts(d, once, long, skip);
    NormalTwice(d, Parse(d, c).value, long, skip);
  }
}
