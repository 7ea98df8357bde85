/** Who sees the maximum, the minimum and the intersection of markings. */
module MarkingsVisible {
  import opened Prelude
  import opened Text
  import opened Sorting
  import opened Markings
  import opened MarkingsParse
  import opened MarkingsNormal
  import opened MarkingsOps

  /** Normalising leaves the parts of the marking alone. */
  ghost predicate Fixed(d: Definition, c: string) {
    && Parse(d, c).Some? && Normalize(d, c, true, false).Some?
    && Parse(d, Normalize(d, c, true, false).value) == Parse(d, c)
  }

  // ---- On parts ------------------------------------------------------------------------------

  lemma SoundDefinition(d: Definition)
    requires WellFormed(d)
    ensures Sound(d)
  {}

  lemma NormFacts(d: Definition, p: Parts, skip: bool)
    requires Sound(d) && GoodParts(d, p)
    ensures Norm(d, Norm(d, p, skip), skip) == Norm(d, p, skip)
    ensures Norm(d, p, skip).level <= INVALID_LVL
  {
    hide GoodTable, GoodParams, GoodLevels, LevelFor;
    LevelForMore(d, p.req, p.req);
    LevelBound(d, p.level);
  }

  /** Skipping automatic selection, a fixed marking stays as it is. */
  lemma FixedSkip(d: Definition, p: Parts)
    requires Norm(d, p, false) == p
    ensures Norm(d, p, true) == p
  {}

  /** Whoever, below the INVALID level, sees the join sees each of the two. */
  lemma JoinSees(d: Definition, u: Parts, p: Parts, q: Parts)
    requires Sound(d) && GoodParts(d, p) && GoodParts(d, q) && Norm(d, p, false) == p && Norm(d, q, false) == q
    requires u.level < INVALID_LVL && Sees(u, Norm(d, Join(d, p, q), true))
    ensures Sees(u, p) && Sees(u, q)
  {
    hide GoodTable, GoodParams, GoodLevels, LevelFor;
    var g, s := MaxNames(p.groups, q.groups), MaxNames(p.subs, q.subs);
    if g.Some? && s.Some? {
      SeesShared(u.groups, p.groups, q.groups, d.autoGroups);
      SeesShared(u.subs, p.subs, q.subs, d.autoSubs);
    }
  }

  lemma SeesShared(user: set<string>, a: set<string>, b: set<string>, auto: seq<string>)
    requires AutoSet(a, auto, false) == a && AutoSet(b, auto, false) == b && MaxNames(a, b).Some?
    requires SeesAny(user, AutoSet(MaxNames(a, b).value, auto, false))
    ensures SeesAny(user, a) && SeesAny(user, b)
  {
    var both := AutoSet(MaxNames(a, b).value, auto, false);
    if a != {} || b != {} {
      var x :| x in user * both;
      assert a != {} ==> x in a;
      assert b != {} ==> x in b;
      assert x in user * a || a == {};
      assert x in user * b || b == {};
    }
  }

  /** Whoever sees a marking sees its meet with any other. */
  lemma MeetSees(d: Definition, u: Parts, p: Parts, q: Parts)
    requires Sound(d) && GoodParts(d, p) && GoodParts(d, q) && Sees(u, Norm(d, p, true))
    ensures Sees(u, Norm(d, Meet(d, Norm(d, p, false), Norm(d, q, false)), true))
    ensures Sees(u, Norm(d, Meet(d, Norm(d, q, false), Norm(d, p, false)), true))
  {
    hide GoodTable, GoodParams, GoodLevels, LevelFor;
    LevelForMore(d, p.req * q.req, p.req);
    assert q.req * p.req == p.req * q.req;
    var a, b := AutoSet(p.groups, d.autoGroups, false), AutoSet(q.groups, d.autoGroups, false);
    SeesEither(u.groups, p.groups, a, b, d.autoGroups);
    var c, e := AutoSet(p.subs, d.autoSubs, false), AutoSet(q.subs, d.autoSubs, false);
    SeesEither(u.subs, p.subs, c, e, d.autoSubs);
  }

  lemma SeesEither(user: set<string>, names: set<string>, a: set<string>, b: set<string>, auto: seq<string>)
    requires SeesAny(user, names) && names <= a && (names == {} ==> a == {})
    ensures SeesAny(user, AutoSet(AutoSet(MinNames(a, b), auto, false), auto, true))
    ensures SeesAny(user, AutoSet(AutoSet(MinNames(b, a), auto, false), auto, true))
  {
    if names != {} && b != {} {
      var x :| x in user * names;
      assert x in user * AutoSet(MinNames(a, b), auto, false);
      assert x in user * AutoSet(MinNames(b, a), auto, false);
    }
  }

  /** Both users see whatever their intersection sees. */
  lemma CrossSees(d: Definition, u: Parts, w: Parts, p: Parts)
    requires Sound(d) && GoodParts(d, u) && GoodParts(d, w)
    requires Sees(Norm(d, Cross(d, Norm(d, u, true), Norm(d, w, true)), true), p)
    ensures Sees(Norm(d, u, true), p) && Sees(Norm(d, w, true), p)
  {
    hide GoodTable, GoodParams, GoodLevels, LevelFor;
    LevelForMore(d, u.req * w.req, u.req);
    LevelForMore(d, u.req * w.req, w.req);
    SeesSmaller(u.groups * w.groups, u.groups, w.groups, p.groups);
    SeesSmaller(u.subs * w.subs, u.subs, w.subs, p.subs);
  }

  lemma SeesSmaller(user: set<string>, a: set<string>, b: set<string>, names: set<string>)
    requires SeesAny(user, names) && user <= a && user <= b
    ensures SeesAny(a, names) && SeesAny(b, names)
  {
    if names != {} {
      var x :| x in user * names;
      assert x in a * names && x in b * names;
    }
  }

  // ---- On texts ------------------------------------------------------------------------------

  /** A user whose normalised level is below INVALID. */
  ghost predicate ValidUser(d: Definition, u: string) {
    Parse(d, u).Some? && Norm(d, Parse(d, u).value, true).level < INVALID_LVL
  }

  ghost predicate FixedOption(d: Definition, c: Option<string>) { c.Some? ==> Fixed(d, c.value) }

  lemma FixedParts(d: Definition, c: string)
    requires WellFormed(d) && Plain(d) && Fixed(d, c)
    ensures GoodParts(d, Parse(d, c).value) && Norm(d, Parse(d, c).value, false) == Parse(d, c).value
  {
    hide WellFormed, Plain, GoodParts, Norm, Normal, Normalize, Parse;
    ParsedGood(d, c);
    NormalizedParts(d, c, true, false);
    PlainNormal(d, Parse(d, c).value, true, false);
  }

  /** Normalising with automatic selection and then asking for access is asking the parts. */
  lemma SeesNormalized(d: Definition, u: string, c: string, skip: bool)
    requires WellFormed(d) && Plain(d) && Parse(d, u).Some? && Parse(d, c).Some?
    ensures var n := Normalize(d, c, true, skip);
            && n.Some? && Parse(d, n.value) == Some(Norm(d, Parse(d, c).value, skip))
            && AccessibleText(d, u, n.value)
               == Some(Sees(Norm(d, Parse(d, u).value, true), Norm(d, Norm(d, Parse(d, c).value, skip), true)))
  {
    hide WellFormed, Plain, GoodParts, Norm, Normal, Normalize, Parse, AccessibleText, Sees;
    ParsedGood(d, c);
    NormalizedParts(d, c, true, skip);
    PlainNormal(d, Parse(d, c).value, true, skip);
    AccessibleIs(d, u, Normalize(d, c, true, skip).value);
  }

  lemma MaxTextSees(d: Definition, u: string, a: string, b: string, long: bool)
    requires WellFormed(d) && Plain(d) && ValidUser(d, u) && Fixed(d, a) && Fixed(d, b)
    ensures MaxText(d, a, b, long).Some? && AccessibleText(d, u, MaxText(d, a, b, long).value).Some?
    ensures AccessibleText(d, u, MaxText(d, a, b, long).value) == Some(true)
            ==> AccessibleText(d, u, a) == Some(true) && AccessibleText(d, u, b) == Some(true)
  {
    hide WellFormed, Plain, GoodParts, Norm, Normalize, Parse, AccessibleText, Sees, MaxText, Join;
    var p, q := Parse(d, a).value, Parse(d, b).value;
    FixedParts(d, a);
    FixedParts(d, b);
    MaxTextIs(d, a, b, long);
    AccessibleIs(d, u, MaxText(d, a, b, long).value);
    AccessibleIs(d, u, a);
    AccessibleIs(d, u, b);
    FixedSkip(d, p);
    FixedSkip(d, q);
    SoundDefinition(d);
    if AccessibleText(d, u, MaxText(d, a, b, long).value) == Some(true) {
      JoinSees(d, Norm(d, Parse(d, u).value, true), p, q);
    }
  }

  /** A user below the INVALID level who sees the maximum of two markings sees both of them. */
  lemma MaxIsSound(d: Definition, u: string, a: Option<string>, b: Option<string>, long: bool)
    requires WellFormed(d) && Plain(d) && ValidUser(d, u) && FixedOption(d, a) && FixedOption(d, b)
    ensures var m := MaxClassification(d, a, b, long);
            && m.Answer? && IsAccessible(d, u, m.value).Answer?
            && (IsAccessible(d, u, m.value) == Answer(true)
                ==> IsAccessible(d, u, a) == Answer(true) && IsAccessible(d, u, b) == Answer(true))
  {
    hide WellFormed, Plain, Norm, AccessibleText, Sees, MaxText, Normalize, Parse, GoodParts;
    if a.Some? && b.Some? {
      MaxTextSees(d, u, a.value, b.value, long);
    } else if a.Some? {
      AloneSees(d, u, a.value);
    } else if b.Some? {
      AloneSees(d, u, b.value);
    }
  }

  /** A fixed marking and its normalisation are seen by the same users. */
  lemma AloneSees(d: Definition, u: string, c: string)
    requires WellFormed(d) && Plain(d) && Parse(d, u).Some? && Fixed(d, c)
    ensures Normalize(d, c, true, false).Some?
    ensures AccessibleText(d, u, Normalize(d, c, true, false).value) == AccessibleText(d, u, c)
    ensures AccessibleText(d, u, c).Some?
  {
    hide WellFormed, Plain, GoodParts, Norm, Normalize, Parse, AccessibleText, Sees;
    AccessibleIs(d, u, c);
    FixedParts(d, c);
    SeesNormalized(d, u, c, false);
  }

  lemma MinTextSees(d: Definition, u: string, a: string, b: string, long: bool)
    requires WellFormed(d) && Plain(d) && Parse(d, u).Some? && Parse(d, a).Some? && Parse(d, b).Some?
    ensures MinText(d, a, b, long).Some? && AccessibleText(d, u, a).Some? && AccessibleText(d, u, b).Some?
    ensures AccessibleText(d, u, a) == Some(true) || AccessibleText(d, u, b) == Some(true)
            ==> AccessibleText(d, u, MinText(d, a, b, long).value) == Some(true)
  {
    hide WellFormed, Plain, GoodParts, Norm, Normalize, Parse, AccessibleText, Sees, MinText, Meet;
    var p, q := Parse(d, a).value, Parse(d, b).value;
    ParsedGood(d, a);
    ParsedGood(d, b);
    MinTextIs(d, a, b, long);
    AccessibleIs(d, u, MinText(d, a, b, long).value);
    AccessibleIs(d, u, a);
    AccessibleIs(d, u, b);
    SoundDefinition(d);
    var w := Norm(d, Parse(d, u).value, true);
    if Sees(w, Norm(d, p, true)) { MeetSees(d, w, p, q); }
    if Sees(w, Norm(d, q, true)) { MeetSees(d, w, q, p); }
  }

  /** A user who sees one of two markings sees their minimum. */
  lemma MinIsSound(d: Definition, u: string, a: string, b: string, long: bool)
    requires WellFormed(d) && Plain(d) && Parse(d, u).Some? && Parse(d, a).Some? && Parse(d, b).Some?
    ensures var m := MinClassification(d, Some(a), Some(b), long);
            && m.Answer?
            && (IsAccessible(d, u, Some(a)) == Answer(true) || IsAccessible(d, u, Some(b)) == Answer(true)
                ==> IsAccessible(d, u, m.value) == Answer(true))
  {
    hide WellFormed, Plain, AccessibleText, MinText, Parse;
    MinTextSees(d, u, a, b, long);
  }

  /** Whatever the intersection of two users sees, each of them sees. */
  lemma IntersectIsSound(d: Definition, u1: string, u2: string, c: string, long: bool)
    requires WellFormed(d) && Plain(d) && Parse(d, u1).Some? && Parse(d, u2).Some? && Parse(d, c).Some?
    ensures var m := IntersectUsers(d, Some(u1), Some(u2), long);
            && m.Answer? && m.value.Some? && IsAccessible(d, m.value.value, Some(c)).Answer?
            && (IsAccessible(d, m.value.value, Some(c)) == Answer(true)
                ==> IsAccessible(d, u1, Some(c)) == Answer(true) && IsAccessible(d, u2, Some(c)) == Answer(true))
  {
    hide WellFormed, Plain, GoodParts, Norm, Normalize, Parse, AccessibleText, Sees, IntersectText, Cross;
    ParsedGood(d, u1);
    ParsedGood(d, u2);
    IntersectTextIs(d, u1, u2, long);
    var m := IntersectText(d, u1, u2, long).value;
    AccessibleIs(d, m, c);
    AccessibleIs(d, u1, c);
    AccessibleIs(d, u2, c);
    SoundDefinition(d);
    if AccessibleText(d, m, c) == Some(true) {
      CrossSees(d, Parse(d, u1).value, Parse(d, u2).value, Norm(d, Parse(d, c).value, true));
    }
  }
}
