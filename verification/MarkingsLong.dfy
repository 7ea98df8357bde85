/** Why normalising twice needs its condition in long format. */
module MarkingsLong {
  import opened Prelude
  import opened Text
  import opened Sorting
  import opened Markings
  import opened MarkingsParse
  import opened MarkingsNormal

  const NO_NAMES := Names(map[], map[], map[])

  const GROUPS := Names(map["XA" := "GA", "XB" := "GB"], map["GA" := "XA", "GB" := "XB"], map[])

  /** The selected subgroup sorts first by its short name and last by its long one. */
  const SUBS := Names(map["ZA" := "SA", "TB" := "SB"], map["SA" := "ZA", "SB" := "TB"], map[])

  const A_ONLY := Params(0, false, Some("GA"), Some("GA"), None)
  const B_ONLY := Params(0, false, Some("GB"), Some("GB"), None)

  function Example(order: set<string> -> seq<string>): Definition {
    Definition(map["U" := 100, "INV" := INVALID_LVL], map[100 := "U", INVALID_LVL := "INV"],
               map["U" := "OPEN", "INV" := "INVALID"], map["OPEN" := "U", "INVALID" := "INV"], map[],
               NO_NAMES, GROUPS, SUBS, [], ["SA"],
               map["SA" := A_ONLY, "ZA" := A_ONLY, "SB" := B_ONLY, "TB" := B_ONLY], order)
  }

  lemma Brief(s: string)
    requires 1 <= |s| <= 7 && (|s| == 7 ==> s[0] != 'R')
    requires forall i | 0 <= i < |s| :: 'A' <= s[i] <= 'Z'
    ensures GoodName(s)
  {
    if RelAt(s, 0) { RelAtStarts(s); }
  }

  /** A table of two names without aliases. */
  lemma TwoNames(s1: string, l1: string, s2: string, l2: string)
    requires GoodName(s1) && GoodName(l1) && GoodName(s2) && GoodName(l2)
    requires s1 != s2 && l1 != l2 && s1 != l1 && s1 != l2 && s2 != l1 && s2 != l2
    ensures GoodTable(Names(map[l1 := s1, l2 := s2], map[s1 := l1, s2 := l2], map[]))
  {
    hide GoodName;
  }

  lemma ExampleTables()
    ensures GoodTable(GROUPS) && GoodTable(SUBS) && GoodTable(NO_NAMES)
  {
    hide GoodName, GoodTable;
    Brief("GA"); Brief("GB"); Brief("XA"); Brief("XB");
    TwoNames("GA", "XA", "GB", "XB");
    Brief("SA"); Brief("SB"); Brief("ZA"); Brief("TB");
    TwoNames("SA", "ZA", "SB", "TB");
    NoNamesGood();
  }

  lemma NoNamesGood()
    ensures GoodTable(NO_NAMES)
  {}

  lemma ExampleLevels(order: set<string> -> seq<string>)
    ensures GoodLevels(Example(order))
  {
    hide GoodName;
    Brief("U"); Brief("INV"); Brief("OPEN"); Brief("INVALID");
    var d := Example(order);
    assert GoodLevel(d, 100);
    assert GoodLevel(d, INVALID_LVL);
  }

  lemma Kinds(order: set<string> -> seq<string>, p: string)
    ensures var d := Example(order);
            && (LevelName(d, p) ==> p == "U" || p == "INV" || p == "OPEN" || p == "INVALID")
            && !Named(d.req, p)
            && (Named(d.groups, p) ==> |p| == 2 && (p[0] == 'G' || p[0] == 'X'))
            && (Named(d.subs, p) ==> |p| == 2 && (p[0] == 'S' || p[0] == 'Z' || p[0] == 'T'))
  {}

  lemma ExampleDisjoint(order: set<string> -> seq<string>)
    ensures Disjoint(Example(order))
  {
    hide LevelName, Named, Example;
    var d := Example(order);
    forall p
      ensures LevelName(d, p) ==> !Named(d.req, p) && !Named(d.groups, p) && !Named(d.subs, p)
      ensures Named(d.req, p) ==> !Named(d.groups, p) && !Named(d.subs, p)
      ensures Named(d.groups, p) ==> !Named(d.subs, p)
    {
      Kinds(order, p);
    }
  }

  lemma ExampleParams(order: set<string> -> seq<string>)
    ensures GoodParams(Example(order))
  {
    hide GoodParam, Example;
    forall p ensures GoodParam(Example(order), p, ParamsOf(Example(order), p)) {
      ExampleParam(order, p);
    }
    SubParams(order);
  }

  lemma ExampleParam(order: set<string> -> seq<string>, p: string)
    ensures GoodParam(Example(order), p, ParamsOf(Example(order), p))
  {
    var q := ParamsOf(Example(order), p);
    assert q == NO_PARAMS || q == A_ONLY || q == B_ONLY;
  }

  lemma SubParams(order: set<string> -> seq<string>)
    ensures var d := Example(order); SameParams(d, d.req) && SameParams(d, d.groups) && SameParams(d, d.subs)
  {
    hide Example;
    var d := Example(order);
    Fields(order);
    forall s | s in GROUPS.stl ensures ParamsOf(d, s) == ParamsOf(d, GROUPS.stl[s]) { NoGroupParams(order, s); }
    SubParamsSame(order);
  }

  lemma NoGroupParams(order: set<string> -> seq<string>, s: string)
    requires s in GROUPS.stl
    ensures ParamsOf(Example(order), s) == ParamsOf(Example(order), GROUPS.stl[s]) == NO_PARAMS
  {}

  lemma SubParamsSame(order: set<string> -> seq<string>)
    ensures SameParams(Example(order), SUBS)
  {
    var d := Example(order);
    assert ParamsOf(d, "SA") == ParamsOf(d, "ZA") && ParamsOf(d, "SB") == ParamsOf(d, "TB");
  }

  lemma Fields(order: set<string> -> seq<string>)
    ensures var d := Example(order); d.req == NO_NAMES && d.subs == SUBS && d.groups == GROUPS && d.autoSubs == ["SA"] && d.autoGroups == [] && d.order == order
  {}

  /** There are well-formed definitions with every table but the required names in use. */
  lemma ExampleWellFormed(order: set<string> -> seq<string>)
    requires forall s :: Lists(order(s), s)
    ensures WellFormed(Example(order))
  {
    hide GoodTable, GoodLevels, Disjoint, GoodParams;
    ExampleTables();
    ExampleLevels(order);
    ExampleDisjoint(order);
    ExampleParams(order);
  }

  // ---- The two lists of subgroups ------------------------------------------------------------

  lemma {:induction false} ListsMultiset(xs: seq<string>, ys: seq<string>)
    requires forall x :: x in xs <==> x in ys
    requires forall i, j :: 0 <= i < j < |xs| ==> xs[i] != xs[j]
    requires forall i, j :: 0 <= i < j < |ys| ==> ys[i] != ys[j]
    ensures multiset(xs) == multiset(ys)
  {
    forall x ensures multiset(xs)[x] == multiset(ys)[x] {
      OnceEach(xs, x);
      OnceEach(ys, x);
    }
  }

  lemma {:induction false} OnceEach(xs: seq<string>, x: string)
    requires forall i, j :: 0 <= i < j < |xs| ==> xs[i] != xs[j]
    ensures multiset(xs)[x] == if x in xs then 1 else 0
  {
    if xs != [] {
      assert xs == [xs[0]] + xs[1..];
      forall i, j | 0 <= i < j < |xs[1..]| ensures xs[1..][i] != xs[1..][j] {
        assert xs[i + 1] != xs[j + 1];
      }
      OnceEach(xs[1..], x);
    }
  }

  /** The sorted listing of a set is its one ordered list. */
  lemma ListingIs(d: Definition, s: set<string>, xs: seq<string>)
    requires Lists(d.order(s), s) && Lists(xs, s) && Ordered(xs)
    ensures Listing(d, s) == xs
  {
    ListsMultiset(d.order(s), xs);
    SortedSorts(d.order(s));
    OrderedUnique(Listing(d, s), xs);
  }

  lemma FirstList(order: set<string> -> seq<string>)
    requires forall s :: Lists(order(s), s)
    ensures SubList(Example(order), {"SB"}, true, false) == ["SA", "TB"]
  {
    hide Example, GoodTable, Listing, SubList;
    var d := Example(order);
    Fields(order);
    ExampleTables();
    SubListIs(d, {"SB"}, true, false);
    FirstNames();
    ListingIs(d, {"SA", "TB"}, ["SA", "TB"]);
  }

  lemma FirstNames()
    ensures DisplaySet(SUBS, {"SB"}, true) + Set(["SA"]) == {"SA", "TB"}
    ensures Ordered(["SA", "TB"]) && Lists(["SA", "TB"], {"SA", "TB"})
  {
    assert DisplaySet(SUBS, {"SB"}, true) == {"TB"};
    assert "SA"[0] < "TB"[0];
  }

  lemma SecondList(order: set<string> -> seq<string>)
    requires forall s :: Lists(order(s), s)
    ensures SubList(Example(order), {"SA", "SB"}, true, false) == ["SA", "TB", "ZA"]
  {
    hide Example, GoodTable, Listing, SubList;
    var d := Example(order);
    Fields(order);
    ExampleTables();
    SubListIs(d, {"SA", "SB"}, true, false);
    SecondNames();
    ListingIs(d, {"SA", "TB", "ZA"}, ["SA", "TB", "ZA"]);
  }

  lemma SecondNames()
    ensures DisplaySet(SUBS, {"SA", "SB"}, true) + Set(["SA"]) == {"SA", "TB", "ZA"}
    ensures Ordered(["SA", "TB", "ZA"]) && Lists(["SA", "TB", "ZA"], {"SA", "TB", "ZA"})
  {
    assert DisplaySet(SUBS, {"SA", "SB"}, true) == {"ZA", "TB"};
    assert "SA"[0] < "TB"[0] && "TB"[0] < "ZA"[0];
  }

  // ---- Their demands -------------------------------------------------------------------------

  lemma FirstDemands(order: set<string> -> seq<string>)
    ensures Added(Example(order), ["SA", "TB"]) == {"GB"}
  {
    var d := Example(order);
    assert ["SA", "TB"][..1] == ["SA"] && ["SA"][..0] == [];
    assert Added(d, ["SA"]) == {"GA"};
  }

  lemma SecondDemands(order: set<string> -> seq<string>)
    ensures Added(Example(order), ["SA", "TB", "ZA"]) == {"GA"}
    ensures !Kept(Example(order), ["SA", "TB", "ZA"], "XB")
  {
    var xs := ["SA", "TB", "ZA"];
    assert xs[..2] == ["SA", "TB"];
    FirstDemands(order);
  }

  lemma NormalDiffers(order: set<string> -> seq<string>)
    requires forall s :: Lists(order(s), s)
    ensures var d, p := Example(order), Parts(100, {}, {}, {"SB"});
            && Normal(d, p, true, false) == Parts(100, {}, {"GB"}, {"SA", "SB"})
            && Normal(d, Normal(d, p, true, false), true, false) == Parts(100, {}, {"GA"}, {"SA", "SB"})
  {
    hide WellFormed, SubList, NormalGroups, RequiredLevel, Listing, Normal, Example;
    var d, p := Example(order), Parts(100, {}, {}, {"SB"});
    ExampleWellFormed(order);
    ExampleParts(order);
    Fields(order);
    FirstList(order);
    SecondList(order);
    NormalIs(d, p, true, false);
    NormalIs(d, Parts(100, {}, {"GB"}, {"SA", "SB"}), true, false);
    NothingRequired(d);
    ExampleGroups(order);
    assert {"SB"} + Set(["SA"]) == {"SA", "SB"} && {"SA", "SB"} + Set(["SA"]) == {"SA", "SB"};
  }

  /** A marking of the example that says only: level U, subgroup B.  Normalised once in long format
      it belongs to group B, normalised twice to group A, because the selected subgroup is listed
      by its short name the first time and by both its names the second time, and the last subgroup
      listed decides. */
  lemma TwiceDiffers(order: set<string> -> seq<string>) returns (c: string)
    requires forall s :: Lists(order(s), s)
    ensures var d := Example(order);
            && WellFormed(d) && Parse(d, c) == Some(Parts(100, {}, {}, {"SB"}))
            && var once := Normalize(d, c, true, false);
            && once.Some? && Parse(d, once.value) == Some(Parts(100, {}, {"GB"}, {"SA", "SB"}))
            && var twice := Normalize(d, once.value, true, false);
            && twice.Some? && Parse(d, twice.value) == Some(Parts(100, {}, {"GA"}, {"SA", "SB"}))
  {
    hide WellFormed, Normal, Example, Parse, Normalize, GoodParts, Written;
    var d, p := Example(order), Parts(100, {}, {}, {"SB"});
    ExampleWellFormed(order);
    ExampleParts(order);
    c := Written(d, p, true);
    WrittenParses(d, p, true);
    NormalizedParts(d, c, true, false);
    NormalizedParts(d, Normalize(d, c, true, false).value, true, false);
    NormalDiffers(order);
  }

  lemma ExampleParts(order: set<string> -> seq<string>)
    ensures GoodParts(Example(order), Parts(100, {}, {}, {"SB"}))
    ensures GoodParts(Example(order), Parts(100, {}, {"GB"}, {"SA", "SB"}))
  {}

  lemma NothingRequired(d: Definition)
    requires forall s :: Lists(d.order(s), s)
    ensures RequiredLevel(d, Listing(d, DisplaySet(d.req, {}, true))) == 0
  {
    assert DisplaySet(d.req, {}, true) == {};
    ListingSet(d, {});
  }

  lemma ExampleGroups(order: set<string> -> seq<string>)
    ensures NormalGroups(Example(order), {}, ["SA", "TB"], true, false) == {"GB"}
    ensures NormalGroups(Example(order), {"GB"}, ["SA", "TB", "ZA"], true, false) == {"GA"}
  {
    hide Added, Kept;
    FirstDemands(order);
    SecondDemands(order);
    assert Display(GROUPS, "GB", true) == "XB";
  }
}
