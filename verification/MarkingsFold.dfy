/** Folding the maximum or the minimum over the markings of a submission or of a file. */
module MarkingsFold {
  // As al/core/dispatch.py and al/core/datastore.py do, in whatever order a dictionary or set lists them.

  import opened Prelude
  import opened Sorting
  import opened Markings
  import opened MarkingsParse
  import opened MarkingsNormal
  import opened MarkingsOps
  import opened MarkingsVisible

  function Elements<T>(xs: seq<T>): set<T> {
    set x | x in xs
  }

  // ---- Folds on texts ------------------------------------------------------------------------

  function MaxFold(d: Definition, init: string, xs: seq<string>): Option<string> {
    if xs == [] then Some(init)
    else
      match MaxFold(d, init, xs[..|xs| - 1])
      case None => None
      case Some(acc) => MaxText(d, acc, xs[|xs| - 1], true)
  }

  function MinFold(d: Definition, init: string, xs: seq<string>): Option<string> {
    if xs == [] then Some(init)
    else
      match MinFold(d, init, xs[..|xs| - 1])
      case None => None
      case Some(acc) => MinText(d, acc, xs[|xs| - 1], true)
  }

  // ---- Folding families of names -------------------------------------------------------------

  /** In every family that is not empty, and there is one. */
  ghost predicate InAll(fs: set<set<string>>, g: string) {
    !AllEmpty(fs) && forall f | f in fs :: f != {} ==> g in f
  }

  ghost predicate AllEmpty(fs: set<set<string>>) {
    forall f | f in fs :: f == {}
  }

  /** There are families, but nothing is common to them. */
  ghost predicate Clash(fs: set<set<string>>) {
    !AllEmpty(fs) && forall g :: !InAll(fs, g)
  }

  function MaxNamesFold(fs: seq<set<string>>): Option<set<string>>
    requires fs != []
  {
    if |fs| == 1 then Some(fs[0])
    else
      match MaxNamesFold(fs[..|fs| - 1])
      case None => None
      case Some(a) => MaxNames(a, fs[|fs| - 1])
  }

  /** The fold clashes, or yields what is common, whatever the order and the repetitions. */
  lemma {:induction false} MaxNamesFoldIs(fs: seq<set<string>>)
    requires fs != []
    ensures MaxNamesFold(fs).None? <==> Clash(Elements(fs))
    ensures MaxNamesFold(fs).Some? ==> forall g :: g in MaxNamesFold(fs).value <==> InAll(Elements(fs), g)
    ensures MaxNamesFold(fs).Some? ==> (MaxNamesFold(fs).value == {} <==> AllEmpty(Elements(fs)))
  {
    if |fs| == 1 {
      SoleFamily(fs);
    } else {
      var front, last := fs[..|fs| - 1], fs[|fs| - 1];
      MaxNamesFoldIs(front);
      assert Elements(fs) == Elements(front) + {last} by { assert fs == front + [last]; }
      FamilyStep(Elements(front), last, MaxNamesFold(front));
    }
  }

  lemma SoleFamily(fs: seq<set<string>>)
    requires |fs| == 1
    ensures !Clash(Elements(fs)) && forall g :: g in fs[0] <==> InAll(Elements(fs), g)
    ensures fs[0] == {} <==> AllEmpty(Elements(fs))
  {
    assert fs[0] in Elements(fs);
    forall g ensures g in fs[0] <==> InAll(Elements(fs), g) {}
    if fs[0] != {} {
      var g :| g in fs[0];
      assert InAll(Elements(fs), g);
    }
  }

  lemma FamilyStep(fs: set<set<string>>, last: set<string>, acc: Option<set<string>>)
    requires acc.None? <==> Clash(fs)
    requires acc.Some? ==> (forall g :: g in acc.value <==> InAll(fs, g)) && (acc.value == {} <==> AllEmpty(fs))
    ensures var r := if acc.None? then None else MaxNames(acc.value, last);
            && (r.None? <==> Clash(fs + {last}))
            && (r.Some? ==> (forall g :: g in r.value <==> InAll(fs + {last}, g)) && (r.value == {} <==> AllEmpty(fs + {last})))
  {
    hide InAll, AllEmpty;
    forall g
      ensures InAll(fs + {last}, g) <==> (if last == {} then InAll(fs, g) else g in last && (AllEmpty(fs) || InAll(fs, g)))
      ensures AllEmpty(fs + {last}) <==> AllEmpty(fs) && last == {}
    {
      InAllStep(fs, last, g);
    }
    InAllStep(fs, last, "");
    var r := if acc.None? then None else MaxNames(acc.value, last);
    if r.Some? && r.value != {} {
      var g :| g in r.value;
      assert InAll(fs + {last}, g);
    }
    if r.None? {
      forall g ensures !InAll(fs + {last}, g) {
        assert acc.Some? ==> (g in acc.value * last <==> g in acc.value && g in last);
      }
    }
  }

  lemma InAllStep(fs: set<set<string>>, last: set<string>, g: string)
    ensures InAll(fs + {last}, g) <==> (if last == {} then InAll(fs, g) else g in last && (AllEmpty(fs) || InAll(fs, g)))
    ensures AllEmpty(fs + {last}) <==> AllEmpty(fs) && last == {}
  {
    assert last in fs + {last};
    assert forall f | f in fs :: f in fs + {last};
  }

  function MinNamesFold(fs: seq<set<string>>): set<string>
    requires fs != []
  {
    if |fs| == 1 then fs[0] else MinNames(MinNamesFold(fs[..|fs| - 1]), fs[|fs| - 1])
  }

  ghost predicate InSome(fs: set<set<string>>, g: string) {
    exists f | f in fs :: g in f
  }

  /** The fold yields everything, unless one family is empty. */
  lemma {:induction false} MinNamesFoldIs(fs: seq<set<string>>)
    requires fs != []
    ensures {} in Elements(fs) ==> MinNamesFold(fs) == {}
    ensures {} !in Elements(fs) ==> MinNamesFold(fs) != {} && forall g :: g in MinNamesFold(fs) <==> InSome(Elements(fs), g)
  {
    if |fs| == 1 {
      assert fs[0] in Elements(fs);
      assert Elements(fs) == {fs[0]};
    } else {
      var front, last := fs[..|fs| - 1], fs[|fs| - 1];
      MinNamesFoldIs(front);
      assert Elements(fs) == Elements(front) + {last} by { assert fs == front + [last]; }
      assert last in Elements(fs);
      forall g ensures InSome(Elements(fs), g) <==> InSome(Elements(front), g) || g in last {}
    }
  }

  // ---- Folds on parts ------------------------------------------------------------------------

  function GroupsIn(ps: seq<Parts>): (fs: seq<set<string>>)
    ensures |fs| == |ps|
  {
    seq(|ps|, i requires 0 <= i < |ps| => ps[i].groups)
  }

  function SubsIn(ps: seq<Parts>): (fs: seq<set<string>>)
    ensures |fs| == |ps|
  {
    seq(|ps|, i requires 0 <= i < |ps| => ps[i].subs)
  }

  function MaxLevel(ps: seq<Parts>): int
    requires ps != []
  {
    if |ps| == 1 then ps[0].level else Max(MaxLevel(ps[..|ps| - 1]), ps[|ps| - 1].level)
  }

  function MinLevel(ps: seq<Parts>): int
    requires ps != []
  {
    if |ps| == 1 then ps[0].level else Min(MinLevel(ps[..|ps| - 1]), ps[|ps| - 1].level)
  }

  function AllReq(ps: seq<Parts>): set<string> {
    set p, r | p in ps && r in p.req :: r
  }

  function CommonReq(ps: seq<Parts>): set<string>
    requires ps != []
  {
    set r | r in ps[0].req && forall p | p in ps :: r in p.req
  }

  function JoinFold(d: Definition, ps: seq<Parts>): Parts
    requires ps != []
  {
    if |ps| == 1 then ps[0] else Join(d, JoinFold(d, ps[..|ps| - 1]), ps[|ps| - 1])
  }

  function MeetFold(d: Definition, ps: seq<Parts>): Parts
    requires ps != []
  {
    if |ps| == 1 then ps[0] else Meet(d, MeetFold(d, ps[..|ps| - 1]), ps[|ps| - 1])
  }

  /** Parts of a normalised marking. */
  ghost predicate NormalParts(d: Definition, p: Parts) {
    GoodParts(d, p) && Norm(d, p, false) == p
  }

  ghost predicate AllNormal(d: Definition, ps: seq<Parts>) {
    forall i | 0 <= i < |ps| :: NormalParts(d, ps[i])
  }

  /** What the fold of the maximum amounts to when nothing clashes. */
  function Highest(ps: seq<Parts>): Option<Parts>
    requires ps != []
  {
    match (MaxNamesFold(GroupsIn(ps)), MaxNamesFold(SubsIn(ps)))
    case (Some(g), Some(s)) => Some(Parts(MaxLevel(ps), AllReq(ps), g, s))
    case _ => None
  }

  function Lowest(ps: seq<Parts>): Parts
    requires ps != []
  {
    Parts(MinLevel(ps), CommonReq(ps), MinNamesFold(GroupsIn(ps)), MinNamesFold(SubsIn(ps)))
  }

  lemma LastOf(ps: seq<Parts>)
    requires |ps| > 1
    ensures var front, last := ps[..|ps| - 1], ps[|ps| - 1];
            && GroupsIn(ps)[..|ps| - 1] == GroupsIn(front) && GroupsIn(ps)[|ps| - 1] == last.groups
            && SubsIn(ps)[..|ps| - 1] == SubsIn(front) && SubsIn(ps)[|ps| - 1] == last.subs
            && AllReq(ps) == AllReq(front) + last.req && CommonReq(ps) == CommonReq(front) * last.req
  {
    var front, last := ps[..|ps| - 1], ps[|ps| - 1];
    assert ps == front + [last];
    forall r ensures r in AllReq(ps) <==> r in AllReq(front) + last.req {
      if r in AllReq(front) {
        var p :| p in front && r in p.req;
        assert p in ps;
      }
      if r in last.req { assert last in ps; }
    }
    forall r ensures r in CommonReq(ps) <==> r in CommonReq(front) * last.req {
      if r in CommonReq(ps) {
        assert forall p | p in front :: p in ps;
        assert last in ps;
      }
    }
  }

  /** The normal parts stay normal under a further maximum. */
  lemma JoinStep(d: Definition, p: Parts, q: Parts)
    requires Sound(d) && NormalParts(d, p) && NormalParts(d, q)
    ensures var g, s := MaxNames(p.groups, q.groups), MaxNames(p.subs, q.subs);
            Join(d, p, q) == if g.Some? && s.Some? then Parts(Max(p.level, q.level), p.req + q.req, g.value, s.value)
                             else INVALID_PARTS
  {
    hide GoodTable, GoodParams, GoodLevels, LevelFor;
    LevelForUnion(d, p.req, q.req);
    var g, s := MaxNames(p.groups, q.groups), MaxNames(p.subs, q.subs);
    if g.Some? { MaxNamesAuto(p.groups, q.groups, d.autoGroups); }
    if s.Some? { MaxNamesAuto(p.subs, q.subs, d.autoSubs); }
  }

  lemma MaxNamesAuto(a: set<string>, b: set<string>, auto: seq<string>)
    requires AutoSet(a, auto, false) == a && AutoSet(b, auto, false) == b && MaxNames(a, b).Some?
    ensures AutoSet(MaxNames(a, b).value, auto, false) == MaxNames(a, b).value
  {
    var m := MaxNames(a, b).value;
    if m != {} && auto != [] {
      assert a != {} ==> Set(auto) <= a;
      assert b != {} ==> Set(auto) <= b;
      assert m + Set(auto) == m;
    }
  }

  lemma MeetStep(d: Definition, p: Parts, q: Parts)
    requires Sound(d) && NormalParts(d, p) && NormalParts(d, q)
    ensures Meet(d, p, q) == Parts(Min(p.level, q.level), p.req * q.req, MinNames(p.groups, q.groups), MinNames(p.subs, q.subs))
  {
    hide GoodTable, GoodParams, GoodLevels, LevelFor;
    LevelForMore(d, p.req * q.req, p.req);
    LevelForMore(d, p.req * q.req, q.req);
    MinNamesAuto(p.groups, q.groups, d.autoGroups);
    MinNamesAuto(p.subs, q.subs, d.autoSubs);
  }

  lemma MinNamesAuto(a: set<string>, b: set<string>, auto: seq<string>)
    requires AutoSet(a, auto, false) == a && AutoSet(b, auto, false) == b
    ensures AutoSet(MinNames(a, b), auto, false) == MinNames(a, b)
  {
    if a != {} && b != {} && auto != [] {
      assert Set(auto) <= a;
      assert (a + b) + Set(auto) == a + b;
    }
  }

  lemma InvalidNormal(d: Definition)
    requires Sound(d)
    ensures NormalParts(d, INVALID_PARTS)
  {
    hide GoodTable, GoodParams, Listing;
    LevelForMore(d, {}, {});
  }

  lemma JoinNormal(d: Definition, p: Parts, q: Parts)
    requires Sound(d) && NormalParts(d, p) && NormalParts(d, q)
    ensures NormalParts(d, Join(d, p, q))
    ensures p.level == INVALID_LVL ==> Join(d, p, q).level == INVALID_LVL
  {
    hide GoodTable, GoodParams, GoodLevels, LevelFor, AutoSet;
    JoinStep(d, p, q);
    InvalidNormal(d);
    LevelBound(d, q.level);
    var g, s := MaxNames(p.groups, q.groups), MaxNames(p.subs, q.subs);
    if g.Some? && s.Some? {
      MaxDefined(d, p, q, g.value, s.value);
      LevelForUnion(d, p.req, q.req);
      MaxNamesAuto(p.groups, q.groups, d.autoGroups);
      MaxNamesAuto(p.subs, q.subs, d.autoSubs);
    }
  }

  lemma MeetNormal(d: Definition, p: Parts, q: Parts)
    requires Sound(d) && NormalParts(d, p) && NormalParts(d, q)
    ensures NormalParts(d, Meet(d, p, q))
  {
    hide GoodTable, GoodParams, GoodLevels, LevelFor, AutoSet;
    MeetStep(d, p, q);
    MaxDefined(d, p, q, MinNames(p.groups, q.groups), MinNames(p.subs, q.subs));
    LevelForMore(d, p.req * q.req, p.req);
    LevelForMore(d, p.req * q.req, q.req);
    MinNamesAuto(p.groups, q.groups, d.autoGroups);
    MinNamesAuto(p.subs, q.subs, d.autoSubs);
  }

  /** The fold of the maximum is what the markings say together, or INVALID. */
  lemma {:induction false} JoinFoldIs(d: Definition, ps: seq<Parts>)
    requires Sound(d) && ps != [] && AllNormal(d, ps)
    ensures NormalParts(d, JoinFold(d, ps))
    ensures if Highest(ps).Some? then JoinFold(d, ps) == Highest(ps).value else JoinFold(d, ps).level == INVALID_LVL
  {
    hide Sound, NormalParts, Join, MaxNames;
    if |ps| == 1 {
      assert ps == [ps[0]] && AllReq(ps) == ps[0].req;
    } else {
      var front, last := ps[..|ps| - 1], ps[|ps| - 1];
      assert forall i | 0 <= i < |front| :: front[i] == ps[i];
      JoinFoldIs(d, front);
      LastOf(ps);
      JoinNormal(d, JoinFold(d, front), last);
      JoinStep(d, JoinFold(d, front), last);
    }
  }

  lemma {:induction false} MeetFoldIs(d: Definition, ps: seq<Parts>)
    requires Sound(d) && ps != [] && AllNormal(d, ps)
    ensures NormalParts(d, MeetFold(d, ps)) && MeetFold(d, ps) == Lowest(ps)
  {
    hide Sound, NormalParts, Meet, MinNames;
    if |ps| == 1 {
      assert ps == [ps[0]] && CommonReq(ps) == ps[0].req;
    } else {
      var front, last := ps[..|ps| - 1], ps[|ps| - 1];
      assert forall i | 0 <= i < |front| :: front[i] == ps[i];
      MeetFoldIs(d, front);
      LastOf(ps);
      MeetNormal(d, MeetFold(d, front), last);
      MeetStep(d, MeetFold(d, front), last);
    }
  }

  // ---- The order does not matter -------------------------------------------------------------

  lemma {:induction false} LevelsAre(ps: seq<Parts>)
    requires ps != []
    ensures forall p | p in ps :: MinLevel(ps) <= p.level <= MaxLevel(ps)
    ensures exists p | p in ps :: p.level == MaxLevel(ps)
    ensures exists p | p in ps :: p.level == MinLevel(ps)
  {
    if |ps| == 1 {
      assert ps[0] in ps;
    } else {
      var front, last := ps[..|ps| - 1], ps[|ps| - 1];
      assert ps == front + [last];
      LevelsAre(front);
      assert last in ps && forall p | p in front :: p in ps;
    }
  }

  lemma SameLevels(ps: seq<Parts>, qs: seq<Parts>)
    requires ps != [] && qs != [] && Elements(ps) == Elements(qs)
    ensures MaxLevel(ps) == MaxLevel(qs) && MinLevel(ps) == MinLevel(qs)
  {
    LevelsAre(ps);
    LevelsAre(qs);
    assert forall p :: p in ps <==> p in Elements(ps);
    assert forall p :: p in qs <==> p in Elements(qs);
  }

  lemma SameReq(ps: seq<Parts>, qs: seq<Parts>)
    requires ps != [] && qs != [] && Elements(ps) == Elements(qs)
    ensures AllReq(ps) == AllReq(qs) && CommonReq(ps) == CommonReq(qs)
  {
    assert forall p :: p in ps <==> p in Elements(ps);
    assert forall p :: p in qs <==> p in Elements(qs);
    assert ps[0] in qs && qs[0] in ps;
  }

  lemma SameFamilies(ps: seq<Parts>, qs: seq<Parts>)
    requires ps != [] && qs != [] && Elements(ps) == Elements(qs)
    ensures Elements(GroupsIn(ps)) == Elements(GroupsIn(qs)) && Elements(SubsIn(ps)) == Elements(SubsIn(qs))
  {
    FamiliesWithin(ps, qs);
    FamiliesWithin(qs, ps);
  }

  lemma FamiliesWithin(ps: seq<Parts>, qs: seq<Parts>)
    requires Elements(ps) <= Elements(qs)
    ensures Elements(GroupsIn(ps)) <= Elements(GroupsIn(qs)) && Elements(SubsIn(ps)) <= Elements(SubsIn(qs))
  {
    forall i | 0 <= i < |ps| ensures ps[i].groups in Elements(GroupsIn(qs)) && ps[i].subs in Elements(SubsIn(qs)) {
      assert ps[i] in Elements(ps);
      var j :| 0 <= j < |qs| && qs[j] == ps[i];
      assert GroupsIn(qs)[j] == ps[i].groups && SubsIn(qs)[j] == ps[i].subs;
    }
  }

  lemma SameMaxNames(fs: seq<set<string>>, hs: seq<set<string>>)
    requires fs != [] && hs != [] && Elements(fs) == Elements(hs)
    ensures MaxNamesFold(fs) == MaxNamesFold(hs) && MinNamesFold(fs) == MinNamesFold(hs)
  {
    hide Clash, InAll, InSome;
    MaxNamesFoldIs(fs);
    MaxNamesFoldIs(hs);
    MinNamesFoldIs(fs);
    MinNamesFoldIs(hs);
    if MaxNamesFold(fs).Some? {
      assert MaxNamesFold(fs).value == MaxNamesFold(hs).value;
    }
    assert MinNamesFold(fs) == MinNamesFold(hs) by {
      if {} !in Elements(fs) {
        forall g ensures g in MinNamesFold(fs) <==> g in MinNamesFold(hs) {}
      }
    }
  }

  /** Both summaries depend on the set of markings only. */
  lemma SummariesSame(ps: seq<Parts>, qs: seq<Parts>)
    requires ps != [] && qs != [] && Elements(ps) == Elements(qs)
    ensures Highest(ps) == Highest(qs) && Lowest(ps) == Lowest(qs)
  {
    hide MaxLevel, MinLevel, AllReq, CommonReq, MaxNamesFold, MinNamesFold, Elements, GroupsIn, SubsIn;
    SameLevels(ps, qs);
    SameReq(ps, qs);
    SameFamilies(ps, qs);
    SameMaxNames(GroupsIn(ps), GroupsIn(qs));
    SameMaxNames(SubsIn(ps), SubsIn(qs));
  }

  // ---- From texts to parts -------------------------------------------------------------------

  ghost predicate AllReadable(d: Definition, xs: seq<string>) {
    forall i | 0 <= i < |xs| :: Parse(d, xs[i]).Some?
  }

  /** The normalised parts of a readable marking. */
  function NormalOf(d: Definition, c: string): Parts {
    Norm(d, Parse(d, c).GetOr(INVALID_PARTS), false)
  }

  function NormalsOf(d: Definition, xs: seq<string>): (ps: seq<Parts>)
    ensures |ps| == |xs|
  {
    seq(|xs|, i requires 0 <= i < |xs| => NormalOf(d, xs[i]))
  }

  lemma NormalOfNormal(d: Definition, c: string)
    requires WellFormed(d) && Plain(d) && Parse(d, c).Some?
    ensures NormalParts(d, NormalOf(d, c))
  {
    hide WellFormed, Plain, GoodParts, Norm, Parse;
    ParsedGood(d, c);
    NormGood(d, Parse(d, c).value, false);
    SoundDefinition(d);
    NormFacts(d, Parse(d, c).value, false);
  }

  lemma NormalsNormal(d: Definition, xs: seq<string>)
    requires WellFormed(d) && Plain(d) && AllReadable(d, xs)
    ensures AllNormal(d, NormalsOf(d, xs))
  {
    hide WellFormed, Plain, NormalParts, NormalOf;
    forall i | 0 <= i < |xs| ensures NormalParts(d, NormalsOf(d, xs)[i]) {
      NormalOfNormal(d, xs[i]);
    }
  }

  lemma {:induction false} MaxFoldIs(d: Definition, init: string, xs: seq<string>)
    requires WellFormed(d) && Plain(d) && xs != [] && AllReadable(d, [init] + xs)
    ensures var r := MaxFold(d, init, xs);
            r.Some? && Parse(d, r.value) == Some(JoinFold(d, NormalsOf(d, [init] + xs)))
  {
    hide WellFormed, Plain, Norm, Parse, Join, MaxText, Highest, NormalParts;
    var front, last := xs[..|xs| - 1], xs[|xs| - 1];
    assert ([init] + xs)[0] == init && ([init] + xs)[|xs|] == last;
    assert [init] + xs == [init] + front + [last];
    var ps := NormalsOf(d, [init] + xs);
    assert ps[..|xs|] == NormalsOf(d, [init] + front) && ps[|xs|] == NormalOf(d, last);
    if front == [] {
      MaxTextIs(d, init, last, true);
      assert NormalsOf(d, [init] + front) == [NormalOf(d, init)];
    } else {
      forall i | 0 <= i < |[init] + front| ensures Parse(d, ([init] + front)[i]).Some? {
        assert ([init] + front)[i] == ([init] + xs)[i];
      }
      MaxFoldIs(d, init, front);
      MaxTextIs(d, MaxFold(d, init, front).value, last, true);
      FoldedIsNormal(d, [init] + front);
    }
  }

  lemma FoldedIsNormal(d: Definition, xs: seq<string>)
    requires WellFormed(d) && Plain(d) && xs != [] && AllReadable(d, xs)
    ensures var p := JoinFold(d, NormalsOf(d, xs)); Norm(d, p, false) == p
    ensures var p := MeetFold(d, NormalsOf(d, xs)); Norm(d, p, false) == p
  {
    hide WellFormed, Plain, Norm, Parse, NormalsOf, Highest, Lowest;
    NormalsNormal(d, xs);
    SoundDefinition(d);
    JoinFoldIs(d, NormalsOf(d, xs));
    MeetFoldIs(d, NormalsOf(d, xs));
  }

  lemma {:induction false} MinFoldIs(d: Definition, init: string, xs: seq<string>)
    requires WellFormed(d) && Plain(d) && xs != [] && AllReadable(d, [init] + xs)
    ensures var r := MinFold(d, init, xs);
            r.Some? && Parse(d, r.value) == Some(MeetFold(d, NormalsOf(d, [init] + xs)))
  {
    hide WellFormed, Plain, Norm, Parse, Meet, MinText, Lowest, NormalParts;
    var front, last := xs[..|xs| - 1], xs[|xs| - 1];
    assert ([init] + xs)[0] == init && ([init] + xs)[|xs|] == last;
    assert [init] + xs == [init] + front + [last];
    var ps := NormalsOf(d, [init] + xs);
    assert ps[..|xs|] == NormalsOf(d, [init] + front) && ps[|xs|] == NormalOf(d, last);
    if front == [] {
      MinTextIs(d, init, last, true);
      assert NormalsOf(d, [init] + front) == [NormalOf(d, init)];
    } else {
      forall i | 0 <= i < |[init] + front| ensures Parse(d, ([init] + front)[i]).Some? {
        assert ([init] + front)[i] == ([init] + xs)[i];
      }
      MinFoldIs(d, init, front);
      MinTextIs(d, MinFold(d, init, front).value, last, true);
      FoldedIsNormal(d, [init] + front);
    }
  }

  lemma SameNormals(d: Definition, xs: seq<string>, ys: seq<string>)
    requires Set(xs) == Set(ys)
    ensures Elements(NormalsOf(d, xs)) == Elements(NormalsOf(d, ys))
  {
    hide NormalOf;
    NormalsWithin(d, xs, ys);
    NormalsWithin(d, ys, xs);
  }

  lemma NormalsWithin(d: Definition, xs: seq<string>, ys: seq<string>)
    requires Set(xs) <= Set(ys)
    ensures Elements(NormalsOf(d, xs)) <= Elements(NormalsOf(d, ys))
  {
    hide NormalOf;
    forall i | 0 <= i < |xs| ensures NormalOf(d, xs[i]) in Elements(NormalsOf(d, ys)) {
      assert xs[i] in Set(xs);
      var j :| 0 <= j < |ys| && ys[j] == xs[i];
      assert NormalsOf(d, ys)[j] == NormalOf(d, xs[i]);
    }
  }

  /** Folding max_classification over the same markings in another order, or with other
      repetitions, gives the same parts, unless the level is INVALID, and then it is for both. */
  lemma MaxFoldOrder(d: Definition, init1: string, xs: seq<string>, init2: string, ys: seq<string>)
    requires WellFormed(d) && Plain(d) && xs != [] && ys != []
    requires AllReadable(d, [init1] + xs) && AllReadable(d, [init2] + ys) && Set([init1] + xs) == Set([init2] + ys)
    ensures var r, s := MaxFold(d, init1, xs), MaxFold(d, init2, ys);
            && r.Some? && s.Some? && Parse(d, r.value).Some? && Parse(d, s.value).Some?
            && (Parse(d, r.value) == Parse(d, s.value)
                || Parse(d, r.value).value.level == Parse(d, s.value).value.level == INVALID_LVL)
  {
    hide WellFormed, Plain, Parse, MaxFold, NormalsOf, JoinFold, Highest, NormalParts, Elements, AllNormal;
    var ps, qs := NormalsOf(d, [init1] + xs), NormalsOf(d, [init2] + ys);
    MaxFoldIs(d, init1, xs);
    MaxFoldIs(d, init2, ys);
    NormalsNormal(d, [init1] + xs);
    NormalsNormal(d, [init2] + ys);
    SoundDefinition(d);
    JoinFoldIs(d, ps);
    JoinFoldIs(d, qs);
    SameNormals(d, [init1] + xs, [init2] + ys);
    SummariesSame(ps, qs);
  }

  /** Folding min_classification over the same markings in another order, or with other
      repetitions, gives the same parts. */
  lemma MinFoldOrder(d: Definition, init1: string, xs: seq<string>, init2: string, ys: seq<string>)
    requires WellFormed(d) && Plain(d) && xs != [] && ys != []
    requires AllReadable(d, [init1] + xs) && AllReadable(d, [init2] + ys) && Set([init1] + xs) == Set([init2] + ys)
    ensures var r, s := MinFold(d, init1, xs), MinFold(d, init2, ys);
            && r.Some? && s.Some? && Parse(d, r.value).Some?
            && Parse(d, r.value) == Parse(d, s.value)
  {
    hide WellFormed, Plain, Parse, MinFold, NormalsOf, MeetFold, Lowest, NormalParts, Elements, AllNormal;
    var ps, qs := NormalsOf(d, [init1] + xs), NormalsOf(d, [init2] + ys);
    MinFoldIs(d, init1, xs);
    MinFoldIs(d, init2, ys);
    NormalsNormal(d, [init1] + xs);
    NormalsNormal(d, [init2] + ys);
    SoundDefinition(d);
    MeetFoldIs(d, ps);
    MeetFoldIs(d, qs);
    SameNormals(d, [init1] + xs, [init2] + ys);
    SummariesSame(ps, qs);
  }
}
