/** The operators on markings: maximum, minimum, intersection of users, access. */
module MarkingsOps {
  // What they do to the parts under definitions without require_group and limited_to_group.

  import opened Prelude
  import opened Text
  import opened Sorting
  import opened Markings
  import opened MarkingsParse
  import opened MarkingsNormal

  // ---- The operators, on texts ---------------------------------------------------------------

  /** set(a) & set(b) or set(a) | set(b); None: InvalidClassification. */
  function MaxNames(a: set<string>, b: set<string>): Option<set<string>> {
    if a != {} && b != {} then
      if a * b == {} then None else Some(a * b)
    else Some(a + b)
  }

  function MinNames(a: set<string>, b: set<string>): set<string> {
    if a != {} && b != {} then a + b else {}
  }

  /** The two normalised operands, as lists of names. */
  function Operands(d: Definition, c1: string, c2: string, long: bool, skip: bool): Option<(Draft, Draft)> {
    var n1, n2 := Normalize(d, c1, true, skip), Normalize(d, c2, true, skip);
    if n1.None? || n2.None? then None
    else
      var p1, p2 := Parse(d, n1.value), Parse(d, n2.value);
      if p1.None? || p2.None? then None
      else Some((Listed(d, p1.value, long), Listed(d, p2.value, long)))
  }

  function MaxText(d: Definition, c1: string, c2: string, long: bool): Option<string> {
    match Operands(d, c1, c2, long, false)
    case None => None
    case Some((a, b)) =>
      var g, s := MaxNames(Set(a.groups), Set(b.groups)), MaxNames(Set(a.subs), Set(b.subs));
      if g.None? || s.None? then Some("INVALID")
      else NormalText(d, Draft(Max(a.level, b.level), d.order(Set(a.req) + Set(b.req)), d.order(g.value), d.order(s.value)), long, false)
  }

  function MinText(d: Definition, c1: string, c2: string, long: bool): Option<string> {
    match Operands(d, c1, c2, long, false)
    case None => None
    case Some((a, b)) =>
      NormalText(d, Draft(Min(a.level, b.level), d.order(Set(a.req) * Set(b.req)),
                          d.order(MinNames(Set(a.groups), Set(b.groups))), d.order(MinNames(Set(a.subs), Set(b.subs)))), long, false)
  }

  function IntersectText(d: Definition, u1: string, u2: string, long: bool): Option<string> {
    match Operands(d, u1, u2, long, true)
    case None => None
    case Some((a, b)) =>
      NormalText(d, Draft(Min(a.level, b.level), d.order(Set(a.req) * Set(b.req)),
                          d.order(Set(a.groups) * Set(b.groups)), d.order(Set(a.subs) * Set(b.subs))), long, true)
  }

  predicate CanSeeRequired(user: seq<string>, req: seq<string>) { Set(req) <= Set(user) }

  predicate CanSeeGroups(user: seq<string>, req: seq<string>) { req == [] || exists g :: g in user && g in req }

  /** None: a level is unknown, which raises InvalidClassification. */
  function AccessibleText(d: Definition, user: string, c: string): Option<bool> {
    match Operands(d, user, c, true, true)
    case None => None
    case Some((u, x)) =>
      Some(u.level >= x.level && CanSeeRequired(u.req, x.req) && CanSeeGroups(u.groups, x.groups) && CanSeeGroups(u.subs, x.subs))
  }

  // ---- The operators, on optional texts ------------------------------------------------------

  datatype Answer<+T> = Raised | Answer(value: T)

  function Given(t: Option<string>): Answer<Option<string>> {
    if t.None? then Raised else Answer(t)
  }

  /** An operand that is None leaves the other one, normalised. */
  function Either(d: Definition, c1: Option<string>, c2: Option<string>, both: Option<string>, skip: bool): Answer<Option<string>> {
    match (c1, c2)
    case (None, None) => Answer(None)
    case (None, Some(c)) => Given(Normalize(d, c, true, skip))
    case (Some(c), None) => Given(Normalize(d, c, true, skip))
    case (Some(_), Some(_)) => Given(both)
  }

  function MaxClassification(d: Definition, c1: Option<string>, c2: Option<string>, long: bool): Answer<Option<string>> {
    Either(d, c1, c2, MaxText(d, c1.GetOr(""), c2.GetOr(""), long), false)
  }

  function MinClassification(d: Definition, c1: Option<string>, c2: Option<string>, long: bool): Answer<Option<string>> {
    Either(d, c1, c2, MinText(d, c1.GetOr(""), c2.GetOr(""), long), false)
  }

  function IntersectUsers(d: Definition, u1: Option<string>, u2: Option<string>, long: bool): Answer<Option<string>> {
    Either(d, u1, u2, IntersectText(d, u1.GetOr(""), u2.GetOr(""), long), true)
  }

  function IsAccessible(d: Definition, user: string, c: Option<string>): Answer<bool> {
    match c
    case None => Answer(true)
    case Some(t) => match AccessibleText(d, user, t) case None => Raised case Some(b) => Answer(b)
  }

  // ---- The operators, on parts ---------------------------------------------------------------

  /** A definition without require_group and limited_to_group. */
  ghost predicate Plain(d: Definition) {
    forall p :: ParamsOf(d, p).requireGroup.None? && ParamsOf(d, p).limitedTo.None?
  }

  /** The level a set of required names, given by short name, asks for. */
  function LevelFor(d: Definition, req: set<string>): int {
    RequiredLevel(d, Listing(d, req))
  }

  /** Normalisation under a plain definition. */
  function Norm(d: Definition, p: Parts, skip: bool): Parts {
    Parts(Max(p.level, LevelFor(d, p.req)), p.req, AutoSet(p.groups, d.autoGroups, skip), AutoSet(p.subs, d.autoSubs, skip))
  }

  const INVALID_PARTS := Parts(INVALID_LVL, {}, {}, {})

  function Join(d: Definition, p: Parts, q: Parts): Parts {
    var g, s := MaxNames(p.groups, q.groups), MaxNames(p.subs, q.subs);
    if g.None? || s.None? then INVALID_PARTS
    else Norm(d, Parts(Max(p.level, q.level), p.req + q.req, g.value, s.value), false)
  }

  function Meet(d: Definition, p: Parts, q: Parts): Parts {
    Norm(d, Parts(Min(p.level, q.level), p.req * q.req, MinNames(p.groups, q.groups), MinNames(p.subs, q.subs)), false)
  }

  function Cross(d: Definition, p: Parts, q: Parts): Parts {
    Norm(d, Parts(Min(p.level, q.level), p.req * q.req, p.groups * q.groups, p.subs * q.subs), true)
  }

  predicate SeesAny(user: set<string>, names: set<string>) { names == {} || user * names != {} }

  predicate Sees(u: Parts, p: Parts) {
    u.level >= p.level && p.req <= u.req && SeesAny(u.groups, p.groups) && SeesAny(u.subs, p.subs)
  }

  // ---- Required levels -----------------------------------------------------------------------

  lemma {:induction false} RequiredBound(d: Definition, req: seq<string>)
    ensures RequiredLevel(d, req) >= 0
    ensures forall r | r in req :: ParamsOf(d, r).requireLvl <= RequiredLevel(d, req)
    ensures RequiredLevel(d, req) == 0 || exists r | r in req :: ParamsOf(d, r).requireLvl == RequiredLevel(d, req)
  {
    if req != [] {
      var front, last := req[..|req| - 1], req[|req| - 1];
      RequiredBound(d, front);
      forall r | r in req ensures ParamsOf(d, r).requireLvl <= RequiredLevel(d, req) {
        assert r == last || r in front;
      }
      if RequiredLevel(d, req) != 0 {
        if RequiredLevel(d, front) == RequiredLevel(d, req) {
          var r :| r in front && ParamsOf(d, r).requireLvl == RequiredLevel(d, front);
          assert r in req;
        } else {
          assert last in req;
        }
      }
    }
  }

  /** More required names ask for no lower level, whatever the order and the format. */
  lemma RequiredMore(d: Definition, xs: seq<string>, ys: seq<string>)
    requires GoodTable(d.req) && SameParams(d, d.req) && AllKnown(d.req, Set(xs)) && AllKnown(d.req, Set(ys))
    requires CanonSet(d.req, Set(xs)) <= CanonSet(d.req, Set(ys))
    ensures RequiredLevel(d, xs) <= RequiredLevel(d, ys)
  {
    hide GoodTable, SameParams;
    RequiredBound(d, xs);
    RequiredBound(d, ys);
    if RequiredLevel(d, xs) != 0 {
      var x :| x in xs && ParamsOf(d, x).requireLvl == RequiredLevel(d, xs);
      assert x in Set(xs);
      CanonParams(d, d.req, x);
      assert Canon(d.req, x) in CanonSet(d.req, Set(xs));
      var y :| y in Set(ys) && Canon(d.req, y) == Canon(d.req, x);
      CanonParams(d, d.req, y);
      assert y in ys;
    }
  }

  ghost predicate ReqNames(d: Definition, req: set<string>) {
    forall r | r in req :: r in d.req.stl
  }

  /** What the lemmas below need of the definition. */
  ghost predicate Sound(d: Definition) {
    GoodTable(d.req) && GoodParams(d) && GoodLevels(d) && forall s :: Lists(d.order(s), s)
  }

  lemma {:induction false} ShortsCanon(t: Names, xs: set<string>)
    requires GoodTable(t) && forall x | x in xs :: x in t.stl
    ensures CanonSet(t, xs) == xs && AllKnown(t, xs)
  {
    forall x | x in xs ensures Canon(t, x) == x { ShortIsItself(t, x); }
    forall s ensures s in CanonSet(t, xs) <==> s in xs {
      if s in xs { assert Canon(t, s) == s; }
    }
  }

  lemma LevelForList(d: Definition, xs: seq<string>)
    requires Sound(d) && AllKnown(d.req, Set(xs))
    ensures RequiredLevel(d, xs) == LevelFor(d, CanonSet(d.req, Set(xs)))
  {
    hide GoodTable, GoodLevels, Listing, RequiredLevel;
    assert SameParams(d, d.req);
    var c := CanonSet(d.req, Set(xs));
    CanonKnown(d.req, Set(xs));
    ShortsCanon(d.req, c);
    ListingSet(d, c);
    RequiredMore(d, xs, Listing(d, c));
    RequiredMore(d, Listing(d, c), xs);
  }

  lemma LevelBound(d: Definition, i: int)
    requires GoodLevels(d) && i in d.levelShort
    ensures 0 <= i <= INVALID_LVL
  {
    assert GoodLevel(d, i);
  }

  lemma LevelForMore(d: Definition, a: set<string>, b: set<string>)
    requires Sound(d) && ReqNames(d, b) && a <= b
    ensures 0 <= LevelFor(d, a) <= LevelFor(d, b) <= INVALID_LVL
  {
    hide GoodTable, Listing, RequiredLevel, GoodLevels, CanonSet;
    assert SameParams(d, d.req);
    ShortsCanon(d.req, a);
    ShortsCanon(d.req, b);
    ListingSet(d, a);
    ListingSet(d, b);
    RequiredBound(d, Listing(d, a));
    RequiredMore(d, Listing(d, a), Listing(d, b));
    RequiredDefined(d, Listing(d, b));
    if LevelFor(d, b) != 0 { LevelBound(d, LevelFor(d, b)); }
  }

  lemma LevelForUnion(d: Definition, a: set<string>, b: set<string>)
    requires Sound(d) && ReqNames(d, a) && ReqNames(d, b)
    ensures LevelFor(d, a + b) == Max(LevelFor(d, a), LevelFor(d, b))
  {
    hide GoodTable, GoodLevels, RequiredLevel, Listing;
    LevelForMore(d, a, a + b);
    LevelForMore(d, b, a + b);
    ListingSet(d, a);
    ListingSet(d, b);
    ListingSet(d, a + b);
    RequiredBound(d, Listing(d, a));
    RequiredBound(d, Listing(d, b));
    RequiredBound(d, Listing(d, a + b));
    if LevelFor(d, a + b) != 0 {
      var r :| r in Listing(d, a + b) && ParamsOf(d, r).requireLvl == LevelFor(d, a + b);
      assert r in Set(Listing(d, a + b));
      assert r in a ==> r in Set(Listing(d, a));
      assert r in b ==> r in Set(Listing(d, b));
    }
  }

  // ---- From texts to parts -------------------------------------------------------------------

  lemma {:induction false} PlainDemands(d: Definition, subs: seq<string>, groups: seq<string>)
    requires Plain(d)
    ensures Demands(d, subs, groups) == groups
  {
    if subs != [] {
      PlainDemands(d, subs[..|subs| - 1], groups);
      assert ParamsOf(d, subs[|subs| - 1]).requireGroup.None? && ParamsOf(d, subs[|subs| - 1]).limitedTo.None?;
    }
  }

  lemma PlainSettled(d: Definition, l: Draft, skip: bool)
    requires WellFormed(d) && Plain(d) && GoodDraft(d, l)
    ensures PartsOf(d, Settled(d, l, skip)) == Norm(d, PartsOf(d, l), skip)
  {
    hide GoodTable, GoodParams, Disjoint, GoodLevels, WithAuto, AutoSet, RequiredLevel, CanonSet, Demands, LevelFor;
    PlainDemands(d, WithAuto(d, l.subs, d.autoSubs, skip), l.groups);
    WithAutoSet(d, l.subs, d.autoSubs, skip);
    WithAutoSet(d, l.groups, d.autoGroups, skip);
    AutoCanon(d.subs, Set(l.subs), d.autoSubs, skip);
    AutoCanon(d.groups, Set(l.groups), d.autoGroups, skip);
    LevelForList(d, l.req);
  }

  lemma ListedParts(d: Definition, p: Parts, long: bool)
    requires WellFormed(d) && GoodParts(d, p)
    ensures PartsOf(d, Listed(d, p, long)) == p
    ensures var l := Listed(d, p, long);
            && l.level == p.level && Set(l.req) == DisplaySet(d.req, p.req, long)
            && Set(l.groups) == DisplaySet(d.groups, p.groups, long) && Set(l.subs) == DisplaySet(d.subs, p.subs, long)
  {
    hide GoodTable, GoodParams, Disjoint, GoodLevels, DisplaySet, Listing, CanonSet;
    DisplayCanon(d.req, p.req, long);
    DisplayCanon(d.groups, p.groups, long);
    DisplayCanon(d.subs, p.subs, long);
    ListingSet(d, DisplaySet(d.req, p.req, long));
    ListingSet(d, DisplaySet(d.groups, p.groups, long));
    ListingSet(d, DisplaySet(d.subs, p.subs, long));
  }

  lemma PlainNormal(d: Definition, p: Parts, long: bool, skip: bool)
    requires WellFormed(d) && Plain(d) && GoodParts(d, p)
    ensures Normal(d, p, long, skip) == Norm(d, p, skip)
  {
    hide WellFormed, Plain, GoodParts, Listed, Norm, PartsOf, Settled;
    ListedGood(d, p, long);
    PlainSettled(d, Listed(d, p, long), skip);
    ListedParts(d, p, long);
  }

  lemma NormGood(d: Definition, p: Parts, skip: bool)
    requires WellFormed(d) && Plain(d) && GoodParts(d, p)
    ensures GoodParts(d, Norm(d, p, skip))
  {
    hide WellFormed, Plain, GoodParts, Norm, Normal;
    PlainNormal(d, p, true, skip);
    NormalGood(d, p, true, skip);
  }

  /** The operands of an operator, by their normalised parts. */
  lemma OperandsAre(d: Definition, c1: string, c2: string, long: bool, skip: bool)
    requires WellFormed(d) && Plain(d) && Parse(d, c1).Some? && Parse(d, c2).Some?
    ensures var p, q := Norm(d, Parse(d, c1).value, skip), Norm(d, Parse(d, c2).value, skip);
            && GoodParts(d, p) && GoodParts(d, q)
            && Operands(d, c1, c2, long, skip) == Some((Listed(d, p, long), Listed(d, q, long)))
  {
    hide WellFormed, Plain, GoodParts, Norm, Normal, Normalize, Parse, Listed;
    ParsedGood(d, c1);
    ParsedGood(d, c2);
    NormGood(d, Parse(d, c1).value, skip);
    NormGood(d, Parse(d, c2).value, skip);
    PlainNormal(d, Parse(d, c1).value, true, skip);
    PlainNormal(d, Parse(d, c2).value, true, skip);
    NormalizedParts(d, c1, true, skip);
    NormalizedParts(d, c2, true, skip);
  }

  // ---- Set operations on displayed names -----------------------------------------------------

  lemma DisplayOps(t: Names, a: set<string>, b: set<string>, long: bool)
    requires GoodTable(t) && (forall s | s in a :: s in t.stl) && forall s | s in b :: s in t.stl
    ensures DisplaySet(t, a, long) + DisplaySet(t, b, long) == DisplaySet(t, a + b, long)
    ensures DisplaySet(t, a, long) * DisplaySet(t, b, long) == DisplaySet(t, a * b, long)
    ensures DisplaySet(t, a, long) <= DisplaySet(t, b, long) <==> a <= b
    ensures DisplaySet(t, a, long) == {} <==> a == {}
  {
    forall s | s in a + b ensures Canon(t, Display(t, s, long)) == s {}
    forall x ensures x in DisplaySet(t, a, long) * DisplaySet(t, b, long) <==> x in DisplaySet(t, a * b, long) {
      if x in DisplaySet(t, a, long) * DisplaySet(t, b, long) {
        var s :| s in a && Display(t, s, long) == x;
        var r :| r in b && Display(t, r, long) == x;
        assert s == Canon(t, x) == r;
      }
    }
    forall s | s in a ensures Display(t, s, long) in DisplaySet(t, a, long) {}
    if DisplaySet(t, a, long) <= DisplaySet(t, b, long) {
      forall s | s in a ensures s in b {
        assert Display(t, s, long) in DisplaySet(t, b, long);
      }
    }
  }

  /** The names an operator hands to the normaliser stand for the short names `s`. */
  lemma OrderedParts(d: Definition, t: Names, s: set<string>, long: bool)
    requires GoodTable(t) && (forall x :: Lists(d.order(x), x)) && forall x | x in s :: x in t.stl
    ensures var xs := d.order(DisplaySet(t, s, long));
            AllKnown(t, Set(xs)) && CanonSet(t, Set(xs)) == s
  {
    hide GoodTable, DisplaySet, CanonSet;
    DisplayCanon(t, s, long);
    assert Lists(d.order(DisplaySet(t, s, long)), DisplaySet(t, s, long));
    assert Set(d.order(DisplaySet(t, s, long))) == DisplaySet(t, s, long);
  }

  /** Printing lists in set order and parsing the result. */
  lemma CombinedParts(d: Definition, level: int, req: set<string>, groups: set<string>, subs: set<string>, long: bool, skip: bool)
    requires WellFormed(d) && Plain(d) && GoodParts(d, Parts(level, req, groups, subs))
    ensures var l := Draft(level, d.order(DisplaySet(d.req, req, long)), d.order(DisplaySet(d.groups, groups, long)),
                           d.order(DisplaySet(d.subs, subs, long)));
            && NormalText(d, l, long, skip).Some?
            && Parse(d, NormalText(d, l, long, skip).value) == Some(Norm(d, Parts(level, req, groups, subs), skip))
  {
    hide GoodTable, GoodParams, Disjoint, GoodLevels, DisplaySet, CanonSet, Norm, NormalText, Parse, Settled, Plain;
    OrderedParts(d, d.req, req, long);
    OrderedParts(d, d.groups, groups, long);
    OrderedParts(d, d.subs, subs, long);
    var l := Draft(level, d.order(DisplaySet(d.req, req, long)), d.order(DisplaySet(d.groups, groups, long)),
                   d.order(DisplaySet(d.subs, subs, long)));
    ParsePrint(d, l, long, skip);
    PlainSettled(d, l, skip);
  }

  lemma InvalidParses(d: Definition)
    requires WellFormed(d)
    ensures Parse(d, "INVALID") == Some(INVALID_PARTS)
  {
    hide GoodTable, GoodParams, Disjoint, DisplaySet, CanonSet, Parse;
    assert GoodLevel(d, INVALID_LVL);
    var p := INVALID_PARTS;
    WrittenParses(d, p, true);
    InvalidWritten(d);
  }

  lemma InvalidWritten(d: Definition)
    requires WellFormed(d)
    ensures Written(d, INVALID_PARTS, true) == "INVALID"
  {
    hide GoodTable, GoodParams, Disjoint, GoodLevel;
    assert LevelText(d, INVALID_LVL, true) == Some("INVALID") by { InvalidLevel(d); }
    var l := Listed(d, INVALID_PARTS, true);
    ListingSet(d, {});
    assert Listing(d, {}) == [] && DisplaySet(d.req, {}, true) == {} && DisplaySet(d.groups, {}, true) == {}
           && DisplaySet(d.subs, {}, true) == {};
    assert l == Draft(INVALID_LVL, [], [], []);
    assert Lists(d.order({}), {});
    assert Set([]) - Set(RequiredGroups(d, [])) == {};
    NoMembers(d.order({}));
    assert Body(d, l, true) == [];
    assert ["INVALID"] + Body(d, l, true) == ["INVALID"];
  }

  lemma InvalidLevel(d: Definition)
    requires GoodLevels(d)
    ensures LevelText(d, INVALID_LVL, true) == Some("INVALID") && INVALID_LVL in d.levelShort
  {
    assert GoodLevel(d, INVALID_LVL);
  }

  lemma MaxDefined(d: Definition, p: Parts, q: Parts, g: set<string>, s: set<string>)
    requires GoodParts(d, p) && GoodParts(d, q) && g <= p.groups + q.groups && s <= p.subs + q.subs
    ensures GoodParts(d, Parts(Max(p.level, q.level), p.req + q.req, g, s))
    ensures GoodParts(d, Parts(Min(p.level, q.level), p.req * q.req, g, s))
  {}

  /** The maximum of two markings, printed and parsed, is the join of their parts. */
  lemma MaxTextIs(d: Definition, c1: string, c2: string, long: bool)
    requires WellFormed(d) && Plain(d) && Parse(d, c1).Some? && Parse(d, c2).Some?
    ensures var t := MaxText(d, c1, c2, long);
            t.Some? && Parse(d, t.value) == Some(Join(d, Norm(d, Parse(d, c1).value, false), Norm(d, Parse(d, c2).value, false)))
  {
    hide GoodParams, Disjoint, GoodLevels, GoodTable, Plain, GoodParts, Norm, NormalText, Parse, Listed, DisplaySet, Operands;
    var p, q := Norm(d, Parse(d, c1).value, false), Norm(d, Parse(d, c2).value, false);
    OperandsAre(d, c1, c2, long, false);
    ListedParts(d, p, long);
    ListedParts(d, q, long);
    PartsDisplay(d, p, q, long);
    InvalidParses(d);
    var g, s := MaxNames(p.groups, q.groups), MaxNames(p.subs, q.subs);
    if g.Some? && s.Some? {
      MaxDefined(d, p, q, g.value, s.value);
      CombinedParts(d, Max(p.level, q.level), p.req + q.req, g.value, s.value, long, false);
    }
  }

  lemma PartsDisplay(d: Definition, p: Parts, q: Parts, long: bool)
    requires WellFormed(d) && GoodParts(d, p) && GoodParts(d, q)
    ensures DisplaySet(d.req, p.req, long) + DisplaySet(d.req, q.req, long) == DisplaySet(d.req, p.req + q.req, long)
    ensures DisplaySet(d.req, p.req, long) * DisplaySet(d.req, q.req, long) == DisplaySet(d.req, p.req * q.req, long)
    ensures DisplaySet(d.req, q.req, long) <= DisplaySet(d.req, p.req, long) <==> q.req <= p.req
    ensures SameOps(d.groups, p.groups, q.groups, long) && SameOps(d.subs, p.subs, q.subs, long)
  {
    hide GoodParams, Disjoint, GoodLevels, GoodTable, DisplaySet;
    DisplayOps(d.req, p.req, q.req, long);
    DisplayOps(d.req, q.req, p.req, long);
    DisplayOps(d.groups, p.groups, q.groups, long);
    DisplayOps(d.groups, q.groups, p.groups, long);
    DisplayOps(d.groups, p.groups * q.groups, p.groups, long);
    DisplayOps(d.subs, p.subs, q.subs, long);
    DisplayOps(d.subs, q.subs, p.subs, long);
    DisplayOps(d.subs, p.subs * q.subs, p.subs, long);
    EmptyDisplay(d.groups, long);
    EmptyDisplay(d.subs, long);
  }

  lemma EmptyDisplay(t: Names, long: bool)
    ensures DisplaySet(t, {}, long) == {}
  {}

  /** Operating on displayed names is operating on short names. */
  ghost predicate SameOps(t: Names, a: set<string>, b: set<string>, long: bool) {
    var x, y := DisplaySet(t, a, long), DisplaySet(t, b, long);
    && x * y == DisplaySet(t, a * b, long)
    && MinNames(x, y) == DisplaySet(t, MinNames(a, b), long)
    && (MaxNames(a, b).None? <==> MaxNames(x, y).None?)
    && (MaxNames(a, b).Some? ==> MaxNames(x, y).value == DisplaySet(t, MaxNames(a, b).value, long))
    && (y == {} <==> b == {}) && (x * y == {} <==> a * b == {})
  }

  lemma MinTextIs(d: Definition, c1: string, c2: string, long: bool)
    requires WellFormed(d) && Plain(d) && Parse(d, c1).Some? && Parse(d, c2).Some?
    ensures var t := MinText(d, c1, c2, long);
            t.Some? && Parse(d, t.value) == Some(Meet(d, Norm(d, Parse(d, c1).value, false), Norm(d, Parse(d, c2).value, false)))
  {
    hide GoodParams, Disjoint, GoodLevels, GoodTable, Plain, GoodParts, Norm, NormalText, Parse, Listed, DisplaySet, Operands;
    var p, q := Norm(d, Parse(d, c1).value, false), Norm(d, Parse(d, c2).value, false);
    OperandsAre(d, c1, c2, long, false);
    ListedParts(d, p, long);
    ListedParts(d, q, long);
    PartsDisplay(d, p, q, long);
    MaxDefined(d, p, q, MinNames(p.groups, q.groups), MinNames(p.subs, q.subs));
    CombinedParts(d, Min(p.level, q.level), p.req * q.req, MinNames(p.groups, q.groups), MinNames(p.subs, q.subs), long, false);
  }

  lemma IntersectTextIs(d: Definition, u1: string, u2: string, long: bool)
    requires WellFormed(d) && Plain(d) && Parse(d, u1).Some? && Parse(d, u2).Some?
    ensures var t := IntersectText(d, u1, u2, long);
            t.Some? && Parse(d, t.value) == Some(Cross(d, Norm(d, Parse(d, u1).value, true), Norm(d, Parse(d, u2).value, true)))
  {
    hide GoodParams, Disjoint, GoodLevels, GoodTable, Plain, GoodParts, Norm, NormalText, Parse, Listed, DisplaySet, Operands;
    var p, q := Norm(d, Parse(d, u1).value, true), Norm(d, Parse(d, u2).value, true);
    OperandsAre(d, u1, u2, long, true);
    ListedParts(d, p, long);
    ListedParts(d, q, long);
    PartsDisplay(d, p, q, long);
    MaxDefined(d, p, q, p.groups * q.groups, p.subs * q.subs);
    CombinedParts(d, Min(p.level, q.level), p.req * q.req, p.groups * q.groups, p.subs * q.subs, long, true);
  }

  lemma SeesList(user: seq<string>, names: seq<string>)
    ensures CanSeeGroups(user, names) <==> SeesAny(Set(user), Set(names))
  {
    if names != [] { assert names[0] in Set(names); }
    if Set(user) * Set(names) != {} {
      var g :| g in Set(user) * Set(names);
      assert g in user && g in names;
    }
    if exists g :: g in user && g in names {
      var g :| g in user && g in names;
      assert g in Set(user) * Set(names);
    }
  }

  /** Access is decided by the parts. */
  lemma AccessibleIs(d: Definition, user: string, c: string)
    requires WellFormed(d) && Plain(d) && Parse(d, user).Some? && Parse(d, c).Some?
    ensures AccessibleText(d, user, c) == Some(Sees(Norm(d, Parse(d, user).value, true), Norm(d, Parse(d, c).value, true)))
  {
    hide GoodParams, Disjoint, GoodLevels, GoodTable, Plain, GoodParts, Norm, Parse, Listed, DisplaySet, Operands, CanSeeGroups;
    var p, q := Norm(d, Parse(d, user).value, true), Norm(d, Parse(d, c).value, true);
    OperandsAre(d, user, c, true, true);
    ListedParts(d, p, true);
    ListedParts(d, q, true);
    PartsDisplay(d, p, q, true);
    SeesList(Listed(d, p, true).groups, Listed(d, q, true).groups);
    SeesList(Listed(d, p, true).subs, Listed(d, q, true).subs);
  }
}
