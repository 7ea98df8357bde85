/** expand_categories of al/core/servicing.py: a worklist that grows while it is walked. */
module Categories {
  import opened Prelude

  type Name = string

  /** Each category with its members, services and other categories. */
  type Table = map<Name, seq<Name>>

  // ---- The loop, round by round ----------------------------------------------------------------

  /** seen_categories.update(item): the characters of the name, not the name. */
  function Characters(item: Name): set<Name> {
    set i | 0 <= i < |item| :: [item[i]]
  }

  /** The first name in the worklist is a category that does not count as seen. */
  predicate Expands(cats: Table, work: seq<Name>, seen: set<Name>)
    requires work != []
  {
    work[0] in cats && work[0] !in seen
  }

  function NextWork(cats: Table, work: seq<Name>, seen: set<Name>): seq<Name>
    requires work != []
  {
    if Expands(cats, work, seen) then work[1..] + cats[work[0]] else work[1..]
  }

  function NextSeen(cats: Table, work: seq<Name>, seen: set<Name>): set<Name>
    requires work != []
  {
    if Expands(cats, work, seen) then seen + Characters(work[0]) else seen
  }

  /** What is left of the worklist after `n` rounds. */
  function AfterRounds(cats: Table, work: seq<Name>, seen: set<Name>, n: nat): seq<Name>
    decreases n
  {
    if n == 0 || work == [] then work
    else AfterRounds(cats, NextWork(cats, work, seen), NextSeen(cats, work, seen), n - 1)
  }

  ghost predicate HaltsFrom(cats: Table, work: seq<Name>, seen: set<Name>) {
    exists n: nat :: AfterRounds(cats, work, seen, n) == []
  }

  /** The loop ends on these names. */
  ghost predicate Halts(cats: Table, names: seq<Name>) {
    HaltsFrom(cats, names, {})
  }

  ghost predicate IsLast(cats: Table, work: seq<Name>, seen: set<Name>, n: nat) {
    AfterRounds(cats, work, seen, n) == [] && forall m: nat | m < n :: AfterRounds(cats, work, seen, m) != []
  }

  lemma {:induction false} SomeLast(cats: Table, work: seq<Name>, seen: set<Name>, n: nat)
    requires AfterRounds(cats, work, seen, n) == []
    ensures exists k: nat :: IsLast(cats, work, seen, k)
    decreases n
  {
    if m: nat :| m < n && AfterRounds(cats, work, seen, m) == [] {
      SomeLast(cats, work, seen, m);
    } else {
      assert IsLast(cats, work, seen, n);
    }
  }

  /** The number of rounds the loop takes. */
  ghost function Rounds(cats: Table, work: seq<Name>, seen: set<Name>): (n: nat)
    requires HaltsFrom(cats, work, seen)
    ensures IsLast(cats, work, seen, n)
  {
    var m: nat :| AfterRounds(cats, work, seen, m) == [];
    SomeLast(cats, work, seen, m);
    var n: nat :| IsLast(cats, work, seen, n);
    n
  }

  lemma OneRound(cats: Table, work: seq<Name>, seen: set<Name>, n: nat)
    requires work != [] && n > 0
    ensures AfterRounds(cats, work, seen, n) == AfterRounds(cats, NextWork(cats, work, seen), NextSeen(cats, work, seen), n - 1)
  {}

  lemma RoundsNext(cats: Table, work: seq<Name>, seen: set<Name>)
    requires HaltsFrom(cats, work, seen) && work != []
    ensures HaltsFrom(cats, NextWork(cats, work, seen), NextSeen(cats, work, seen))
    ensures Rounds(cats, NextWork(cats, work, seen), NextSeen(cats, work, seen)) < Rounds(cats, work, seen)
  {
    hide NextWork, NextSeen, AfterRounds;
    var n := Rounds(cats, work, seen);
    assert n > 0 by { NoRound(cats, work, seen); }
    OneRound(cats, work, seen, n);
    var next, then' := NextWork(cats, work, seen), NextSeen(cats, work, seen);
    assert AfterRounds(cats, next, then', n - 1) == [];
    var m := Rounds(cats, next, then');
    assert !(n - 1 < m);
  }

  lemma NoRound(cats: Table, work: seq<Name>, seen: set<Name>)
    ensures AfterRounds(cats, work, seen, 0) == work
  {}

  lemma HaltsNext(cats: Table, work: seq<Name>, seen: set<Name>)
    requires work == [] || HaltsFrom(cats, NextWork(cats, work, seen), NextSeen(cats, work, seen))
    ensures HaltsFrom(cats, work, seen)
  {
    if work == [] {
      NoRound(cats, work, seen);
    } else {
      var n: nat :| AfterRounds(cats, NextWork(cats, work, seen), NextSeen(cats, work, seen), n) == [];
      OneRound(cats, work, seen, n + 1);
    }
  }

  /** The services found from a worklist, given what was seen. */
  ghost function Walk(cats: Table, work: seq<Name>, seen: set<Name>): set<Name>
    requires HaltsFrom(cats, work, seen)
    decreases Rounds(cats, work, seen)
  {
    if work == [] then {}
    else
      RoundsNext(cats, work, seen);
      (if work[0] in cats then {} else {work[0]}) + Walk(cats, NextWork(cats, work, seen), NextSeen(cats, work, seen))
  }

  method ExpandCategories(cats: Table, names: Option<seq<Name>>) returns (found: set<Name>)
    requires Halts(cats, names.GetOr([]))
    ensures found == Walk(cats, names.GetOr([]), {})
  {
    if names.None? { return {}; }
    var work := names.value;
    var seen: set<Name> := {};
    found := {};
    var i := 0;
    assert work[0..] == work;
    while i < |work|
      invariant i <= |work| && HaltsFrom(cats, work[i..], seen)
      invariant found + Walk(cats, work[i..], seen) == Walk(cats, names.value, {})
      decreases Rounds(cats, work[i..], seen)
    {
      var item := work[i];
      ghost var before, saw := work[i..], seen;
      assert before[0] == item && before[1..] == work[i + 1..];
      RoundsNext(cats, before, saw);
      if item in cats {
        if item !in seen {
          work := work + cats[item];
          seen := seen + Characters(item);
          assert work[i + 1..] == before[1..] + cats[item];
        }
      } else {
        found := found + {item};
      }
      assert work[i + 1..] == NextWork(cats, before, saw) && seen == NextSeen(cats, before, saw);
      i := i + 1;
    }
    assert work[i..] == [];
  }

  // ---- When the loop ends ------------------------------------------------------------------------

  ghost predicate Meets(names: seq<Name>, ring: set<Name>) {
    exists x :: x in names && x in ring
  }

  /** Categories, none of one letter, each of which has another of them, or itself, as a member. */
  ghost predicate Circular(cats: Table, ring: set<Name>) {
    forall c | c in ring :: c in cats && |c| != 1 && Meets(cats[c], ring)
  }

  ghost predicate NoRing(cats: Table) {
    forall ring | Circular(cats, ring) :: ring == {}
  }

  lemma StillMeets(cats: Table, ring: set<Name>, work: seq<Name>, seen: set<Name>)
    requires Circular(cats, ring) && Meets(work, ring) && forall l | l in seen :: |l| == 1
    ensures work != [] && Meets(NextWork(cats, work, seen), ring) && forall l | l in NextSeen(cats, work, seen) :: |l| == 1
  {
    var x :| x in work && x in ring;
    var next := NextWork(cats, work, seen);
    if work[0] == x {
      var m :| m in cats[x] && m in ring;
      assert m in next;
    } else {
      assert x in work[1..] && x in next;
    }
  }

  /** Once a category of a ring is in the worklist, one always is. */
  lemma {:induction false} NeverEnds(cats: Table, ring: set<Name>, work: seq<Name>, seen: set<Name>, n: nat)
    requires Circular(cats, ring) && Meets(work, ring) && forall l | l in seen :: |l| == 1
    ensures Meets(AfterRounds(cats, work, seen, n), ring)
    decreases n
  {
    hide Circular, Meets, NextWork, NextSeen;
    if n > 0 {
      StillMeets(cats, ring, work, seen);
      NeverEnds(cats, ring, NextWork(cats, work, seen), NextSeen(cats, work, seen), n - 1);
    }
  }

  /** A service that is named like its own category makes the loop run forever. */
  lemma CategoryOfItself(n: nat)
    ensures var cats: Table := map["AV" := ["AV"]]; AfterRounds(cats, ["AV"], {}, n) != []
  {
    var cats: Table := map["AV" := ["AV"]];
    assert "AV" in cats["AV"] && "AV" in ["AV"];
    assert Meets(cats["AV"], {"AV"}) && Meets(["AV"], {"AV"});
    NeverEnds(cats, {"AV"}, ["AV"], {}, n);
  }

  /** Members rank below their category. */
  ghost predicate Ranked(cats: Table, names: set<Name>, rank: map<Name, nat>) {
    && (forall c | c in names :: c in cats && c in rank)
    && forall c, m | c in names && m in cats[c] && m in names :: rank[m] < rank[c]
  }

  /** Without a ring, categories not of one letter can be ranked: one of them has none of the others. */
  lemma {:induction false} SomeRank(cats: Table, names: set<Name>) returns (rank: map<Name, nat>)
    requires NoRing(cats) && forall c | c in names :: c in cats && |c| != 1
    ensures Ranked(cats, names, rank)
    decreases |names|
  {
    if names == {} {
      rank := map[];
    } else {
      assert !Circular(cats, names);
      var c :| c in names && !Meets(cats[c], names);
      var above := SomeRank(cats, names - {c});
      rank := map k | k in names :: if k == c then 0 else above[k] + 1;
      assert forall m | m in cats[c] :: m !in names;
    }
  }

  /** The names still to be walked, at most, when this one is expanded, itself included; categories
      of one letter are left aside. */
  ghost function Weight(cats: Table, names: set<Name>, rank: map<Name, nat>, item: Name): nat
    requires Ranked(cats, names, rank)
    decreases if item in names then rank[item] + 1 else 0, 1
  {
    1 + if item in names then WeightOf(cats, names, rank, item, cats[item]) else 0
  }

  ghost function WeightOf(cats: Table, names: set<Name>, rank: map<Name, nat>, c: Name, items: seq<Name>): nat
    requires Ranked(cats, names, rank) && c in names && forall m | m in items :: m in cats[c]
    decreases rank[c] + 1, 0, |items|
  {
    if items == [] then 0 else Weight(cats, names, rank, items[0]) + WeightOf(cats, names, rank, c, items[1..])
  }

  ghost function Total(cats: Table, names: set<Name>, rank: map<Name, nat>, items: seq<Name>): nat
    requires Ranked(cats, names, rank)
  {
    if items == [] then 0 else Weight(cats, names, rank, items[0]) + Total(cats, names, rank, items[1..])
  }

  lemma {:induction false} Appending(cats: Table, names: set<Name>, rank: map<Name, nat>, xs: seq<Name>, ys: seq<Name>)
    requires Ranked(cats, names, rank)
    ensures Total(cats, names, rank, xs + ys) == Total(cats, names, rank, xs) + Total(cats, names, rank, ys)
  {
    if xs == [] {
      assert xs + ys == ys;
    } else {
      Appending(cats, names, rank, xs[1..], ys);
      assert (xs + ys)[1..] == xs[1..] + ys;
    }
  }

  lemma {:induction false} MembersWeigh(cats: Table, names: set<Name>, rank: map<Name, nat>, c: Name, items: seq<Name>)
    requires Ranked(cats, names, rank) && c in names && forall m | m in items :: m in cats[c]
    ensures Total(cats, names, rank, items) == WeightOf(cats, names, rank, c, items)
  {
    if items != [] { MembersWeigh(cats, names, rank, c, items[1..]); }
  }

  lemma Unfolds(cats: Table, names: set<Name>, rank: map<Name, nat>, work: seq<Name>)
    requires Ranked(cats, names, rank) && work != []
    ensures Total(cats, names, rank, work[1..]) < Total(cats, names, rank, work)
    ensures work[0] in names ==> Total(cats, names, rank, work[1..] + cats[work[0]]) < Total(cats, names, rank, work)
  {
    if work[0] in names {
      MembersWeigh(cats, names, rank, work[0], cats[work[0]]);
      Appending(cats, names, rank, work[1..], cats[work[0]]);
    }
  }

  function OfOneLetter(cats: Table): set<Name> { set c | c in cats && |c| == 1 }

  /** A round expands a new category of one letter, or makes the rest of the walk shorter. */
  lemma {:induction false} RankedHalts(cats: Table, rank: map<Name, nat>, work: seq<Name>, seen: set<Name>)
    requires Ranked(cats, cats.Keys - OfOneLetter(cats), rank)
    ensures HaltsFrom(cats, work, seen)
    decreases |OfOneLetter(cats) - seen|, Total(cats, cats.Keys - OfOneLetter(cats), rank, work)
  {
    hide HaltsFrom, Ranked, Total;
    if work != [] {
      var letters, names := OfOneLetter(cats), cats.Keys - OfOneLetter(cats);
      var then' := NextSeen(cats, work, seen);
      assert letters - then' <= letters - seen;
      Unfolds(cats, names, rank, work);
      if Expands(cats, work, seen) && work[0] in letters {
        assert work[0] == [work[0][0]] && work[0] in Characters(work[0]);
        SmallerSet(letters - then', letters - seen);
      } else if letters - then' != letters - seen {
        SmallerSet(letters - then', letters - seen);
      }
      RankedHalts(cats, rank, NextWork(cats, work, seen), then');
    }
    HaltsNext(cats, work, seen);
  }

  lemma SmallerSet<T>(a: set<T>, b: set<T>)
    requires a < b
    ensures |a| < |b|
  {
    assert b == a + (b - a);
  }

  /** Exactly when the loop ends whatever it is given: no categories, other than of one letter, form
      a ring.  (A ring through a category of one letter is cut there, as that counts as seen.) */
  lemma HaltsExactly(cats: Table)
    ensures (forall names :: Halts(cats, names)) <==> NoRing(cats)
  {
    if NoRing(cats) {
      var rank := SomeRank(cats, cats.Keys - OfOneLetter(cats));
      forall names ensures Halts(cats, names) { RankedHalts(cats, rank, names, {}); }
    } else {
      var ring :| Circular(cats, ring) && ring != {};
      var c :| c in ring;
      assert c in [c] && Meets([c], ring);
      forall n: nat ensures AfterRounds(cats, [c], {}, n) != [] { NeverEnds(cats, ring, [c], {}, n); }
      assert !Halts(cats, [c]);
    }
  }

  // ---- What the names stand for --------------------------------------------------------------------

  /** Reached from the name by following category members. */
  ghost predicate Reaches(cats: Table, path: seq<Name>, s: Name) {
    && path != [] && path[|path| - 1] == s && s !in cats
    && forall k | 0 <= k < |path| - 1 :: path[k] in cats && path[k + 1] in cats[path[k]]
  }

  /** A name stands for the services at the end of a chain of categories from it. */
  ghost predicate StandsFor(cats: Table, item: Name, s: Name) {
    exists path :: Reaches(cats, path, s) && path[0] == item
  }

  ghost predicate OneStandsFor(cats: Table, names: seq<Name>, s: Name) {
    exists x :: x in names && StandsFor(cats, x, s)
  }

  lemma FirstStep(cats: Table, path: seq<Name>, s: Name)
    requires Reaches(cats, path, s)
    ensures if |path| > 1 then path[0] in cats && path[1] in cats[path[0]] else path[0] == s
  {
    assert |path| > 1 ==> path[0] in cats && path[0 + 1] in cats[path[0]];
  }

  /** A service stands for itself, a category for what its members stand for. */
  lemma StandsByMembers(cats: Table, item: Name, s: Name)
    ensures StandsFor(cats, item, s) <==> if item in cats then OneStandsFor(cats, cats[item], s) else item == s
  {
    if item !in cats {
      if s == item { assert Reaches(cats, [item], s) && [item][0] == item; }
      if path :| Reaches(cats, path, s) && path[0] == item { FirstStep(cats, path, s); }
    } else {
      if m :| m in cats[item] && StandsFor(cats, m, s) {
        var path :| Reaches(cats, path, s) && path[0] == m;
        LongerPath(cats, item, path, s);
      }
      if path :| Reaches(cats, path, s) && path[0] == item {
        FirstStep(cats, path, s);
        assert |path| > 1;
        ShorterPath(cats, path, s);
        assert path[1..][0] == path[1] && StandsFor(cats, path[1], s);
      }
    }
  }

  lemma LongerPath(cats: Table, item: Name, path: seq<Name>, s: Name)
    requires Reaches(cats, path, s) && item in cats && path[0] in cats[item]
    ensures Reaches(cats, [item] + path, s) && ([item] + path)[0] == item
  {
    var p := [item] + path;
    forall k | 0 <= k < |p| - 1 ensures p[k] in cats && p[k + 1] in cats[p[k]] {
      if k > 0 { assert path[k - 1] in cats && path[k - 1 + 1] in cats[path[k - 1]]; }
    }
  }

  lemma ShorterPath(cats: Table, path: seq<Name>, s: Name)
    requires Reaches(cats, path, s) && |path| > 1
    ensures Reaches(cats, path[1..], s)
  {
    var p := path[1..];
    forall k | 0 <= k < |p| - 1 ensures p[k] in cats && p[k + 1] in cats[p[k]] {
      assert path[k + 1] in cats && path[k + 1 + 1] in cats[path[k + 1]];
    }
  }

  // ---- What the loop passes over -------------------------------------------------------------------

  /** The categories the loop takes for seen. */
  ghost function Passed(cats: Table, work: seq<Name>, seen: set<Name>): set<Name>
    requires HaltsFrom(cats, work, seen)
    decreases Rounds(cats, work, seen)
  {
    if work == [] then {}
    else
      RoundsNext(cats, work, seen);
      (if work[0] in cats && work[0] in seen then {work[0]} else {})
      + Passed(cats, NextWork(cats, work, seen), NextSeen(cats, work, seen))
  }

  ghost predicate PassedFor(cats: Table, work: seq<Name>, seen: set<Name>, s: Name)
    requires HaltsFrom(cats, work, seen)
  {
    exists c :: c in Passed(cats, work, seen) && StandsFor(cats, c, s)
  }

  lemma {:induction false} FoundOrPassed(cats: Table, work: seq<Name>, seen: set<Name>, s: Name)
    requires HaltsFrom(cats, work, seen)
    ensures OneStandsFor(cats, work, s) <==> s in Walk(cats, work, seen) || PassedFor(cats, work, seen, s)
    decreases Rounds(cats, work, seen)
  {
    if work != [] {
      RoundsNext(cats, work, seen);
      FoundOrPassed(cats, NextWork(cats, work, seen), NextSeen(cats, work, seen), s);
      hide HaltsFrom, StandsFor, NextSeen, OneStandsFor;
      StandsByMembers(cats, work[0], s);
      PassedFirst(cats, work, seen, s);
      WorkStands(cats, work, seen, s);
    }
  }

  lemma PassedFirst(cats: Table, work: seq<Name>, seen: set<Name>, s: Name)
    requires HaltsFrom(cats, work, seen) && work != []
    ensures HaltsFrom(cats, NextWork(cats, work, seen), NextSeen(cats, work, seen))
    ensures PassedFor(cats, work, seen, s)
            <==> (work[0] in cats && work[0] in seen && StandsFor(cats, work[0], s))
                 || PassedFor(cats, NextWork(cats, work, seen), NextSeen(cats, work, seen), s)
  {
    RoundsNext(cats, work, seen);
    hide HaltsFrom, StandsFor, NextSeen, NextWork;
    var rest := Passed(cats, NextWork(cats, work, seen), NextSeen(cats, work, seen));
    assert forall c :: c in Passed(cats, work, seen) <==> (c == work[0] && work[0] in cats && work[0] in seen) || c in rest;
  }

  /** What the next worklist stands for, by the head of this one. */
  lemma WorkStands(cats: Table, work: seq<Name>, seen: set<Name>, s: Name)
    requires work != []
    ensures OneStandsFor(cats, work, s) <==> StandsFor(cats, work[0], s) || OneStandsFor(cats, work[1..], s)
    ensures OneStandsFor(cats, NextWork(cats, work, seen), s)
            <==> OneStandsFor(cats, work[1..], s) || (Expands(cats, work, seen) && OneStandsFor(cats, cats[work[0]], s))
  {
    hide StandsFor;
    assert forall x :: x in work <==> x == work[0] || x in work[1..];
    if Expands(cats, work, seen) {
      assert forall x :: x in NextWork(cats, work, seen) <==> x in work[1..] || x in cats[work[0]];
    }
  }

  /** The loop finds exactly the services the names stand for. */
  ghost predicate Complete(cats: Table, names: seq<Name>)
    requires Halts(cats, names)
  {
    forall s :: s in Walk(cats, names, {}) <==> OneStandsFor(cats, names, s)
  }

  /** The loop never finds anything else; and exactly when it finds all: what the categories it
      passed over stand for was found all the same. */
  lemma ExpandsExactly(cats: Table, names: seq<Name>)
    requires Halts(cats, names)
    ensures forall s | s in Walk(cats, names, {}) :: OneStandsFor(cats, names, s)
    ensures Complete(cats, names) <==> forall s | PassedFor(cats, names, {}, s) :: s in Walk(cats, names, {})
  {
    hide Walk, PassedFor, OneStandsFor, HaltsFrom;
    forall s
      ensures OneStandsFor(cats, names, s) <==> s in Walk(cats, names, {}) || PassedFor(cats, names, {}, s)
    {
      FoundOrPassed(cats, names, {}, s);
    }
  }

  // ---- Names that clash ------------------------------------------------------------------------------

  /** No name of one letter is a letter of another name. */
  ghost predicate NoClash(names: set<Name>) {
    forall c, d | c in names && d in names && c in Characters(d) :: c == d
  }

  /** Each of the categories has had its members found or expanded in turn. */
  ghost predicate Settled(cats: Table, done: set<Name>, found: set<Name>) {
    forall e | e in done :: e in cats && forall m | m in cats[e] :: m in done || m in found
  }

  /** Every name still due is found or expanded in the end. */
  lemma {:induction false} WalkSettles(cats: Table, work: seq<Name>, seen: set<Name>, found: set<Name>, done: set<Name>)
    returns (all: set<Name>)
    requires HaltsFrom(cats, work, seen) && NoClash(cats.Keys) && done <= cats.Keys
    requires forall l | l in seen :: exists e :: e in done && l in Characters(e)
    requires forall e, m | e in done && m in cats[e] :: m in done || m in found || m in work
    ensures done <= all && Settled(cats, all, found + Walk(cats, work, seen))
    ensures forall w | w in work :: w in all || w in found + Walk(cats, work, seen)
    decreases Rounds(cats, work, seen)
  {
    hide Characters, HaltsFrom;
    if work == [] {
      all := done;
    } else {
      RoundsNext(cats, work, seen);
      var item, rest := work[0], work[1..];
      assert forall w | w in work :: w == item || w in rest;
      if item !in cats {
        all := WalkSettles(cats, rest, seen, found + {item}, done);
        assert found + {item} + Walk(cats, rest, seen) == found + Walk(cats, work, seen);
      } else if item in seen {
        var e :| e in done && item in Characters(e);
        assert item == e;
        all := WalkSettles(cats, rest, seen, found, done);
        assert found + Walk(cats, rest, seen) == found + Walk(cats, work, seen);
      } else {
        all := WalkSettles(cats, rest + cats[item], seen + Characters(item), found, done + {item});
        assert found + Walk(cats, rest + cats[item], seen + Characters(item)) == found + Walk(cats, work, seen);
      }
    }
  }

  lemma {:induction false} SettledStands(cats: Table, done: set<Name>, found: set<Name>, path: seq<Name>, s: Name)
    requires Settled(cats, done, found) && (forall f | f in found :: f !in cats)
    requires Reaches(cats, path, s) && (path[0] in done || path[0] in found)
    ensures s in found
    decreases |path|
  {
    FirstStep(cats, path, s);
    if |path| > 1 {
      ShorterPath(cats, path, s);
      SettledStands(cats, done, found, path[1..], s);
    }
  }

  lemma {:induction false} WalkFindsServices(cats: Table, work: seq<Name>, seen: set<Name>)
    requires HaltsFrom(cats, work, seen)
    ensures forall f | f in Walk(cats, work, seen) :: f !in cats
    decreases Rounds(cats, work, seen)
  {
    if work != [] {
      RoundsNext(cats, work, seen);
      WalkFindsServices(cats, NextWork(cats, work, seen), NextSeen(cats, work, seen));
    }
  }

  /** Without a clash of letters the loop finds exactly the services the names stand for. */
  lemma ExpandsFully(cats: Table, names: seq<Name>)
    requires Halts(cats, names) && NoClash(cats.Keys)
    ensures Complete(cats, names)
  {
    hide Walk, NoClash, Passed, HaltsFrom, Settled;
    var found := Walk(cats, names, {});
    var all := WalkSettles(cats, names, {}, {}, {});
    WalkFindsServices(cats, names, {});
    assert {} + found == found;
    ExpandsExactly(cats, names);
    forall s | OneStandsFor(cats, names, s) ensures s in found {
      var x :| x in names && StandsFor(cats, x, s);
      var path :| Reaches(cats, path, s) && path[0] == x;
      SettledStands(cats, all, found, path, s);
    }
  }

  /** Exactly which names categories may have: the loop finds all services, whatever the categories
      of these names contain and whatever it ends on, if and only if no letters clash. */
  lemma NamesDecide(keys: set<Name>)
    ensures NoClash(keys) <==> forall cats: Table, names | cats.Keys == keys && Halts(cats, names) :: Complete(cats, names)
  {
    hide NoClash, Complete, Halts;
    if NoClash(keys) {
      forall cats: Table, names | cats.Keys == keys && Halts(cats, names) ensures Complete(cats, names) {
        ExpandsFully(cats, names);
      }
    } else {
      var cats, names := ClashMisses(keys);
    }
  }

  /** A name longer than all those given. */
  lemma {:induction false} Longer(names: set<Name>) returns (n: nat)
    ensures forall s | s in names :: |s| < n
    decreases |names|
  {
    if s :| s in names {
      n := Longer(names - {s});
      if |s| >= n { n := |s| + 1; }
      assert forall t | t in names :: t == s || t in names - {s};
    } else {
      n := 0;
    }
  }

  /** With a clash, a service that only category `c` has is missed when `d` comes first. */
  lemma ClashMisses(keys: set<Name>) returns (cats: Table, names: seq<Name>)
    requires !NoClash(keys)
    ensures cats.Keys == keys && NoRing(cats) && Halts(cats, names) && !Complete(cats, names)
  {
    var c, d :| c in keys && d in keys && c in Characters(d) && c != d;
    var n := Longer(keys);
    var t: Name := seq(n, _ => 'x');
    assert |t| == n && t !in keys;
    cats := map k | k in keys :: if k == c then [t] else [];
    names := [d, c];
    forall ring | Circular(cats, ring) ensures ring == {} {
      if k :| k in ring {
        assert false;
      }
    }
    HaltsExactly(cats);
    ClashPasses(cats, c, d);
    StandsByMembers(cats, t, t);
    assert t in cats[c] && OneStandsFor(cats, cats[c], t);
    StandsByMembers(cats, c, t);
    assert c in names && OneStandsFor(cats, names, t);
  }

  lemma ClashPasses(cats: Table, c: Name, d: Name)
    requires Halts(cats, [d, c]) && c in cats && d in cats && cats[d] == [] && c in Characters(d)
    ensures Walk(cats, [d, c], {}) == {}
  {
    var seen := {} + Characters(d);
    var work := [d, c];
    RoundsNext(cats, work, {});
    assert NextWork(cats, work, {}) == [c] && NextSeen(cats, work, {}) == seen;
    RoundsNext(cats, [c], seen);
    assert NextWork(cats, [c], seen) == [] && NextSeen(cats, [c], seen) == seen;
    assert Walk(cats, [], seen) == {};
  }

  /** For example, category A is taken for seen once AB has been. */
  lemma LetterClash() returns (cats: Table)
    ensures cats == map["AB" := ["S"], "A" := ["T"]] && Halts(cats, ["AB", "A"])
    ensures "T" !in Walk(cats, ["AB", "A"], {}) && OneStandsFor(cats, ["AB", "A"], "T")
  {
    cats := map["AB" := ["S"], "A" := ["T"]];
    forall ring | Circular(cats, ring) ensures ring == {} {
      if k :| k in ring {
        assert false;
      }
    }
    HaltsExactly(cats);
    ExampleWalk(cats);
    StandsByMembers(cats, "T", "T");
    assert "T" in cats["A"] && OneStandsFor(cats, cats["A"], "T");
    StandsByMembers(cats, "A", "T");
    assert "A" in ["AB", "A"];
  }

  lemma ExampleWalk(cats: Table)
    requires cats == map["AB" := ["S"], "A" := ["T"]] && Halts(cats, ["AB", "A"])
    ensures Walk(cats, ["AB", "A"], {}) == {"S"}
  {
    var seen: set<Name> := {} + Characters("AB");
    RoundsNext(cats, ["AB", "A"], {});
    assert NextWork(cats, ["AB", "A"], {}) == ["A", "S"] && NextSeen(cats, ["AB", "A"], {}) == seen;
    assert "A" == ["AB"[0]] && "A" in seen;
    RoundsNext(cats, ["A", "S"], seen);
    assert NextWork(cats, ["A", "S"], seen) == ["S"] && NextSeen(cats, ["A", "S"], seen) == seen;
    RoundsNext(cats, ["S"], seen);
    assert NextWork(cats, ["S"], seen) == [] && NextSeen(cats, ["S"], seen) == seen;
    assert Walk(cats, [], seen) == {};
    assert Walk(cats, ["S"], seen) == {"S"};
    assert Walk(cats, ["A", "S"], seen) == {"S"};
  }
}
