/** What every interleaving of the scan/duplicate protocol keeps. */
module DuplicatesProofs {
  import opened Prelude
  import opened Duplicates
  import Lock = ScanLock

  // ---- The lock and the threads agree --------------------------------------------------------

  predicate Holds(g: Stage) { InBody(g) || g.Exit? }

  predicate Agrees(w: Work, p: Lock.Phase) {
    if Wants(w.stage) then p.Waiting? && p.key == w.key
    else if Holds(w.stage) then p.Inside? && p.key == w.key
    else if w.stage.Away? then p.Leaving?
    else p.Outside?
  }

  predicate ThreadAgrees(s: State, t: Thread) { Agrees(WorkOf(s, t), Lock.PhaseOf(s.locks, t)) }

  ghost predicate LockInv(s: State) {
    Lock.Inv(s.locks) && forall t :: ThreadAgrees(s, t)
  }

  /** Only one thread holds the lock of a key. */
  lemma OneHolder(s: State, t: Thread, u: Thread)
    requires LockInv(s) && Holds(WorkOf(s, t).stage) && Holds(WorkOf(s, u).stage) && WorkOf(s, t).key == WorkOf(s, u).key
    ensures t == u
  {
    hide Lock.Inv;
    assert ThreadAgrees(s, t) && ThreadAgrees(s, u);
    Lock.MutexOf(s.locks, t, u);
  }

  /** A step in the body is the thread's own. */
  lemma WorkedFrame(s: State, t: Thread)
    requires InBody(WorkOf(s, t).stage)
    ensures var r := Worked(s, t);
            r.locks == s.locks && r.done == s.done && WorkOf(r, t).key == WorkOf(s, t).key && Holds(WorkOf(r, t).stage)
  {
    WorkedSame(s, t);
  }

  lemma WorkedSame(s: State, t: Thread)
    requires InBody(WorkOf(s, t).stage)
    ensures Worked(s, t).locks == s.locks && Worked(s, t).done == s.done
  {}

  lemma WorkedOthers(s: State, t: Thread, u: Thread)
    requires InBody(WorkOf(s, t).stage) && u != t
    ensures WorkOf(Worked(s, t), u) == WorkOf(s, u)
  {}

  lemma DroppedFrame(s: State, t: Thread, retries: bool)
    ensures var r := Dropped(s, t, retries);
            && r.locks == s.locks && r.done == s.done && (WorkOf(r, t) == RESTING || WorkOf(r, t).stage == GiveUp)
            && forall u | u != t :: WorkOf(r, u) == WorkOf(s, u)
  {}

  lemma LockStep(s: State, e: Event)
    requires LockInv(s) && Step(s, e).Some?
    ensures LockInv(Step(s, e).value)
  {
    hide Lock.Inv, Lock.Register, Worked, Dropped, Agrees;
    var r := Step(s, e).value;
    assert ThreadAgrees(s, e.t);
    LocksKept(s, e);
    forall u ensures ThreadAgrees(r, u) {
      assert ThreadAgrees(s, u);
      if u != e.t { OthersKept(s, e, u); } else { OwnAgrees(s, e); }
    }
  }

  lemma LocksKept(s: State, e: Event)
    requires LockInv(s) && Step(s, e).Some?
    ensures Lock.Inv(Step(s, e).value.locks)
  {
    hide Lock.Inv, Lock.Register, Lock.Unregister, Lock.Release, Lock.Acquire, Worked, Dropped;
    var r := Step(s, e).value;
    match e
    case Submits(t, key) => Lock.RegisterKeeps(s.locks, t, key);
    case Completes(t, key, sid, score, ours) => Lock.RegisterKeeps(s.locks, t, key);
    case TimesOut(t, key) => Lock.RegisterKeeps(s.locks, t, key);
    case Enters(t) => Lock.AcquireKeeps(s.locks, t);
    case Works(t) => WorkedFrame(s, t);
    case Unregisters(t) => Lock.UnregisterKeeps(s.locks, t);
    case Releases(t) => Lock.ReleaseKeeps(s.locks, t);
    case CallEnds(t, fails) =>
    case Drops(t, retries) => DroppedFrame(s, t, retries);
  }

  /** A step leaves the other threads, and their place in the lock, alone. */
  lemma OthersKept(s: State, e: Event, u: Thread)
    requires Step(s, e).Some? && u != e.t
    ensures var r := Step(s, e).value;
            WorkOf(r, u) == WorkOf(s, u) && Lock.PhaseOf(r.locks, u) == Lock.PhaseOf(s.locks, u)
  {
    hide Worked, Dropped;
    if e.Works? { WorkedFrame(s, e.t); WorkedOthers(s, e.t, u); }
    if e.Drops? { DroppedFrame(s, e.t, e.retries); }
  }

  lemma OwnAgrees(s: State, e: Event)
    requires LockInv(s) && Step(s, e).Some?
    ensures ThreadAgrees(Step(s, e).value, e.t)
  {
    hide Worked, Dropped, Lock.Inv;
    assert ThreadAgrees(s, e.t);
    match e
    case Works(t) => WorkedFrame(s, t);
    case Drops(t, retries) => DroppedFrame(s, t, retries);
    case Unregisters(t) => Lock.UnregisterKeeps(s.locks, t);
    case Submits(_, _) => BeginAgrees(s, e);
    case Completes(_, _, _, _, _) => BeginAgrees(s, e);
    case TimesOut(_, _) => BeginAgrees(s, e);
    case _ => OtherAgrees(s, e);
  }

  lemma BeginAgrees(s: State, e: Event)
    requires Step(s, e).Some? && ThreadAgrees(s, e.t) && (e.Submits? || e.Completes? || e.TimesOut?)
    ensures ThreadAgrees(Step(s, e).value, e.t)
  {}

  lemma OtherAgrees(s: State, e: Event)
    requires Step(s, e).Some? && ThreadAgrees(s, e.t) && (e.Enters? || e.Releases? || e.CallEnds?)
    ensures ThreadAgrees(Step(s, e).value, e.t)
  {
    hide Worked, Dropped, Begun, Lock.Register, Lock.Unregister;
  }

  // ---- Parked notices ------------------------------------------------------------------------

  predicate Draining(s: State, t: Thread, key: string) {
    var w := WorkOf(s, t);
    w.key == key && (w.stage.DoneOwn? || w.stage.DoneDrain? || w.stage.LateDrain?)
  }

  predicate Drained(w: Work) { w.stage.DoneFinal? || (w.stage.Exit? && w.stage.settled) }

  predicate Tracked(s: State, key: string) { key in s.scanning || key in s.abandoned }

  /** Duplicates wait only for a scan in progress, for a thread that is draining them, or for
      nothing once the failure path dropped the scan. */
  ghost predicate Parked(s: State, key: string) {
    DupsOf(s, key) != [] ==> Tracked(s, key) || exists t :: Draining(s, t, key)
  }

  ghost predicate ThreadInv(s: State, t: Thread) {
    var w := WorkOf(s, t);
    && (w.stage.SubmitPark? ==> Tracked(s, w.key))
    && (w.stage.SubmitAdd? ==> w.key !in s.scanning)
    && (Draining(s, t, w.key) || Drained(w) ==> w.key !in s.scanning)
    && (Drained(w) ==> DupsOf(s, w.key) == [])
    && (w.held != [] ==> w.stage.DoneOwn? || w.stage.DoneDrain? || w.stage.DoneFinal?)
    && (w.stage.DonePop? || w.stage.DoneWant? || w.stage.DoneOwn? || w.stage.DoneDrain? || w.held != []
        ==> (w.key, w.sid, w.score) in s.done)
  }

  ghost predicate ParkInv(s: State) {
    (forall k :: Parked(s, k)) && forall t :: ThreadInv(s, t)
  }

  /** What a step does to the tables outside the lock it holds. */
  ghost predicate Elsewhere(s: State, r: State, key: string) {
    forall k | k != key ::
      (k in r.scanning <==> k in s.scanning) && DupsOf(r, k) == DupsOf(s, k) && (k in r.abandoned <==> k in s.abandoned)
  }

  lemma WorkedElsewhere(s: State, t: Thread)
    requires InBody(WorkOf(s, t).stage)
    ensures Elsewhere(s, Worked(s, t), WorkOf(s, t).key)
  {}

  lemma WorkedOwn(s: State, t: Thread)
    requires LockInv(s) && ParkInv(s) && InBody(WorkOf(s, t).stage)
    ensures ThreadInv(Worked(s, t), t) && Parked(Worked(s, t), WorkOf(s, t).key)
  {
    hide Lock.Inv, Worked;
    var key := WorkOf(s, t).key;
    assert ThreadInv(s, t) && Parked(s, key);
    if DupsOf(s, key) != [] && !Tracked(s, key) {
      var u :| Draining(s, u, key);
      OneHolder(s, t, u);
    }
    WorkedThread(s, t);
    WorkedParked(s, t);
  }

  lemma WorkedThread(s: State, t: Thread)
    requires ThreadInv(s, t) && InBody(WorkOf(s, t).stage)
    ensures ThreadInv(Worked(s, t), t)
  {}

  lemma WorkedParked(s: State, t: Thread)
    requires ThreadInv(s, t) && InBody(WorkOf(s, t).stage)
    requires var key := WorkOf(s, t).key; DupsOf(s, key) != [] && !Tracked(s, key) ==> Draining(s, t, key)
    ensures Parked(Worked(s, t), WorkOf(s, t).key)
  {
    var key := WorkOf(s, t).key;
    var r := Worked(s, t);
    assert Draining(r, t, key) ==> exists u :: Draining(r, u, key);
  }

  lemma WorksKeeps(s: State, t: Thread)
    requires LockInv(s) && ParkInv(s) && InBody(WorkOf(s, t).stage)
    ensures ParkInv(Worked(s, t))
  {
    hide Worked, Lock.Inv, LockInv, ThreadInv;
    var key := WorkOf(s, t).key;
    var r := Worked(s, t);
    WorkedFrame(s, t);
    forall u | u != t ensures WorkOf(r, u) == WorkOf(s, u) { WorkedOthers(s, t, u); }
    WorkedElsewhere(s, t);
    WorkedOwn(s, t);
    forall k ensures Parked(r, k) {
      assert Parked(s, k);
      if k != key && DupsOf(s, k) != [] && !Tracked(s, k) {
        var u :| Draining(s, u, k);
        assert Draining(r, u, k);
      }
    }
    forall u ensures ThreadInv(r, u) {
      assert ThreadInv(s, u);
      if u != t { OtherThread(s, r, t, u); }
    }
  }

  /** A thread outside the lock of the key, or one of another key, keeps its facts. */
  lemma OtherThread(s: State, r: State, t: Thread, u: Thread)
    requires LockInv(s) && u != t && InBody(WorkOf(s, t).stage) && ThreadInv(s, u)
    requires WorkOf(r, u) == WorkOf(s, u) && r.done == s.done && Elsewhere(s, r, WorkOf(s, t).key)
    ensures ThreadInv(r, u)
  {
    hide LockInv;
    if Holds(WorkOf(s, u).stage) && WorkOf(s, u).key == WorkOf(s, t).key { OneHolder(s, t, u); }
  }

  /** A step that only takes scans or duplicates away, marking the former as abandoned. */
  ghost predicate TakesAway(s: State, r: State) {
    && (forall k :: k in r.scanning ==> k in s.scanning)
    && (forall k :: Tracked(s, k) ==> Tracked(r, k))
    && (forall k :: DupsOf(s, k) == [] ==> DupsOf(r, k) == [])
    && s.done <= r.done
  }

  lemma TakesAwayKeeps(s: State, r: State, t: Thread)
    requires ParkInv(s) && TakesAway(s, r) && (forall u | u != t :: WorkOf(r, u) == WorkOf(s, u)) && ThreadInv(r, t)
    requires forall k :: Draining(s, t, k) ==> Draining(r, t, k) || Tracked(r, k) || DupsOf(r, k) == []
    ensures ParkInv(r)
  {
    hide Tracked;
    forall k ensures Parked(r, k) {
      assert Parked(s, k);
      if DupsOf(r, k) != [] && !Tracked(s, k) {
        var u :| Draining(s, u, k);
        assert Draining(r, u, k) || u == t;
      }
    }
    forall u ensures ThreadInv(r, u) {
      assert ThreadInv(s, u);
    }
  }

  lemma ParkStep(s: State, e: Event)
    requires LockInv(s) && ParkInv(s) && Step(s, e).Some?
    ensures ParkInv(Step(s, e).value)
  {
    hide Worked, Dropped, LockInv, ParkInv;
    if e.Works? {
      WorksKeeps(s, e.t);
    } else {
      AwayStep(s, e);
      OwnStep(s, e);
      forall u | u != e.t ensures WorkOf(Step(s, e).value, u) == WorkOf(s, u) { OthersKept(s, e, u); }
      TakesAwayKeeps(s, Step(s, e).value, e.t);
    }
  }

  lemma AwayStep(s: State, e: Event)
    requires Step(s, e).Some? && !e.Works?
    ensures TakesAway(s, Step(s, e).value)
  {
    hide Worked, Lock.Register, Lock.Acquire, Lock.Unregister, Lock.Release;
  }

  lemma OwnStep(s: State, e: Event)
    requires ParkInv(s) && Step(s, e).Some? && !e.Works?
    ensures ThreadInv(Step(s, e).value, e.t)
    ensures forall k :: !Draining(s, e.t, k)
  {
    assert ThreadInv(s, e.t);
    NotDraining(s, e);
    if e.Submits? || e.Completes? || e.TimesOut? { BeginStep(s, e); }
    else if e.Drops? { DropStep(s, e.t, e.retries); }
    else { MoveStep(s, e); }
  }

  lemma NotDraining(s: State, e: Event)
    requires Step(s, e).Some? && !e.Works?
    ensures forall k :: !Draining(s, e.t, k)
  {}

  lemma BeginStep(s: State, e: Event)
    requires Step(s, e).Some? && (e.Submits? || e.Completes? || e.TimesOut?)
    ensures ThreadInv(Step(s, e).value, e.t)
  {}

  lemma DropStep(s: State, t: Thread, retries: bool)
    requires ThreadInv(s, t) && (WorkOf(s, t).stage.FailPop? || WorkOf(s, t).stage.GiveUp?)
    ensures ThreadInv(Dropped(s, t, retries), t)
  {}

  lemma MoveStep(s: State, e: Event)
    requires ThreadInv(s, e.t) && Step(s, e).Some? && (e.Enters? || e.Unregisters? || e.Releases? || e.CallEnds?)
    ensures ThreadInv(Step(s, e).value, e.t)
  {
    hide Worked, Dropped, Begun, Lock.Acquire, Lock.Unregister, Lock.Release;
  }

  // ---- Every notice is in one place ----------------------------------------------------------

  /** Where a notice can be: being scanned, waiting as a duplicate, in a thread's hands, finalised,
      dropped by a timeout, or handed to the retry queue (or dropped) by the failure path. */
  datatype Place = Scan(key: string) | Queue(key: string) | Hand(t: Thread) | Finished | Late | Back

  function Notices(fs: seq<Final>): (ns: seq<nat>)
    ensures |ns| == |fs|
  {
    seq(|fs|, i requires 0 <= i < |fs| => fs[i].notice)
  }

  function Content(s: State, p: Place): seq<nat> {
    match p
    case Scan(key) => if key in s.scanning then [s.scanning[key]] else []
    case Queue(key) => DupsOf(s, key)
    case Hand(t) => WorkOf(s, t).held
    case Finished => Notices(s.finals)
    case Late => s.late
    case Back => s.back
  }

  ghost predicate Distinct(ns: seq<nat>) {
    forall i, j :: 0 <= i < j < |ns| ==> ns[i] != ns[j]
  }

  predicate At(s: State, p: Place, n: nat) { n in Content(s, p) }

  ghost predicate Unique(s: State, n: nat) {
    && (forall p, q :: At(s, p, n) && At(s, q, n) ==> p == q)
    && (n < s.next <==> exists p :: At(s, p, n))
  }

  /** Each accepted notice is in exactly one place, once. */
  ghost predicate PlaceInv(s: State) {
    (forall n: nat :: Unique(s, n)) && forall p :: Distinct(Content(s, p))
  }

  /** The notices `ns` went from one place to the end of another. */
  ghost predicate Moved(s: State, r: State, ns: seq<nat>, src: Place, dst: Place) {
    && src != dst && r.next == s.next
    && Content(s, src) == ns + Content(r, src) && Content(r, dst) == Content(s, dst) + ns
    && forall p | p != src && p != dst :: Content(r, p) == Content(s, p)
  }

  lemma MovedKeeps(s: State, r: State, ns: seq<nat>, src: Place, dst: Place)
    requires PlaceInv(s) && Moved(s, r, ns, src, dst)
    ensures PlaceInv(r)
  {
    hide Content;
    assert Distinct(Content(s, src)) && Distinct(Content(s, dst));
    MovedDistinct(s, ns, src, dst);
    forall p ensures Distinct(Content(r, p)) {
      assert Distinct(Content(s, p));
      if p == src {
        forall i, j | 0 <= i < j < |Content(r, src)| ensures Content(r, src)[i] != Content(r, src)[j] {
          assert Content(s, src)[|ns| + i] != Content(s, src)[|ns| + j];
        }
      }
    }
    forall n: nat ensures Unique(r, n) {
      MovedUnique(s, r, ns, src, dst, n);
    }
  }

  lemma MovedDistinct(s: State, ns: seq<nat>, src: Place, dst: Place)
    requires PlaceInv(s) && src != dst && ns <= Content(s, src)
    ensures Distinct(Content(s, dst) + ns)
  {
    hide Content;
    assert Distinct(Content(s, src)) && Distinct(Content(s, dst));
    var all := Content(s, dst) + ns;
    forall i, j | 0 <= i < j < |all| ensures all[i] != all[j] {
      if j >= |Content(s, dst)| {
        var n := all[j];
        assert n == Content(s, src)[j - |Content(s, dst)|];
        assert At(s, src, n) && Unique(s, n);
        if i < |Content(s, dst)| {
          assert !At(s, dst, n);
        } else {
          assert all[i] == Content(s, src)[i - |Content(s, dst)|];
        }
      }
    }
  }

  lemma DistinctParts(xs: seq<nat>, ys: seq<nat>)
    requires Distinct(xs + ys)
    ensures forall n | n in xs :: n !in ys
  {
    forall i, j | 0 <= i < |xs| && 0 <= j < |ys| ensures xs[i] != ys[j] {
      assert (xs + ys)[i] != (xs + ys)[|xs| + j];
    }
  }

  lemma MovedUnique(s: State, r: State, ns: seq<nat>, src: Place, dst: Place, n: nat)
    requires PlaceInv(s) && Moved(s, r, ns, src, dst)
    ensures Unique(r, n)
  {
    hide Content;
    assert Unique(s, n) && Distinct(Content(s, src));
    assert n in Content(s, src) <==> n in ns || n in Content(r, src);
    assert n in Content(r, dst) <==> n in ns || n in Content(s, dst);
    DistinctParts(ns, Content(r, src));
    forall p ensures At(r, p, n) <==> (if n in ns then p == dst else At(s, p, n)) {
      if n in ns { assert At(s, src, n); }
      if p == src {
        assert At(r, p, n) <==> n in Content(r, src);
        assert At(s, p, n) <==> n in Content(s, src);
      } else if p == dst {
        assert At(r, p, n) <==> n in Content(r, dst);
        assert At(s, p, n) <==> n in Content(s, dst);
      } else {
        assert Content(r, p) == Content(s, p);
        assert At(r, p, n) <==> At(s, p, n);
        assert n in ns ==> !At(s, p, n);
      }
    }
    if n < s.next {
      var p :| At(s, p, n);
      assert At(r, if n in ns then dst else p, n);
    }
    if p :| At(r, p, n) {
      assert At(s, if n in ns then src else p, n);
    }
  }

  /** A notice was accepted, in one place. */
  ghost predicate Accepted(s: State, r: State, dst: Place) {
    && r.next == s.next + 1 && Content(r, dst) == Content(s, dst) + [s.next]
    && forall p | p != dst :: Content(r, p) == Content(s, p)
  }

  lemma AcceptedKeeps(s: State, r: State, dst: Place)
    requires PlaceInv(s) && Accepted(s, r, dst)
    ensures PlaceInv(r)
  {
    hide Content;
    assert Unique(s, s.next);
    assert !At(s, dst, s.next);
    forall p ensures Distinct(Content(r, p)) {
      assert Distinct(Content(s, p));
    }
    forall n: nat ensures Unique(r, n) {
      assert Unique(s, n);
      forall p ensures At(r, p, n) <==> At(s, p, n) || (p == dst && n == s.next) {}
      if n < s.next {
        var p :| At(s, p, n);
        assert At(r, p, n);
      }
      if n == s.next { assert At(r, dst, n); }
      if p :| At(r, p, n) && p != dst { assert At(s, p, n); }
    }
  }

  ghost predicate SamePlaces(s: State, r: State) {
    r.next == s.next && forall p :: Content(r, p) == Content(s, p)
  }

  lemma SameKeeps(s: State, r: State)
    requires PlaceInv(s) && SamePlaces(s, r)
    ensures PlaceInv(r)
  {
    hide Content;
    forall p ensures Distinct(Content(r, p)) { assert Distinct(Content(s, p)); }
    forall n: nat ensures Unique(r, n) {
      assert Unique(s, n);
      forall p ensures At(r, p, n) <==> At(s, p, n) {}
      if n < s.next {
        var p :| At(s, p, n);
        assert At(r, p, n);
      }
      if p :| At(r, p, n) { assert At(s, p, n); }
    }
  }

  lemma NoticesAppend(fs: seq<Final>, f: Final)
    ensures Notices(fs + [f]) == Notices(fs) + [f.notice]
  {}

  lemma FinalisedPlaces(s: State, t: Thread, then': Stage)
    requires PlaceInv(s)
    ensures PlaceInv(Finalised(s, t, then'))
  {
    hide PlaceInv;
    var r := Finalised(s, t, then');
    var w := WorkOf(s, t);
    if w.held == [] {
      assert SamePlaces(s, r);
      SameKeeps(s, r);
    } else {
      NoticesAppend(s.finals, Final(w.held[0], w.key, w.sid, w.score));
      assert Moved(s, r, [w.held[0]], Hand(t), Finished);
      MovedKeeps(s, r, [w.held[0]], Hand(t), Finished);
    }
  }

  lemma SubmitPlaces(s: State, t: Thread)
    requires PlaceInv(s) && ThreadInv(s, t)
    requires var g := WorkOf(s, t).stage; g.SubmitTest? || g.SubmitPark? || g.SubmitAdd?
    ensures PlaceInv(Worked(s, t))
  {
    hide PlaceInv;
    var r, k, g := Worked(s, t), WorkOf(s, t).key, WorkOf(s, t).stage;
    if g.SubmitTest? {
      assert SamePlaces(s, r);
      SameKeeps(s, r);
    } else if g.SubmitPark? {
      assert Accepted(s, r, Queue(k));
      AcceptedKeeps(s, r, Queue(k));
    } else {
      assert Accepted(s, r, Scan(k));
      AcceptedKeeps(s, r, Scan(k));
    }
  }

  lemma PopPlaces(s: State, t: Thread)
    requires PlaceInv(s) && ThreadInv(s, t)
    requires var g := WorkOf(s, t).stage; g.DonePop? || g.LatePop?
    ensures PlaceInv(Worked(s, t))
  {
    hide PlaceInv;
    var r, k := Worked(s, t), WorkOf(s, t).key;
    if k !in s.scanning && WorkOf(s, t).stage.DonePop? && WorkOf(s, t).ours {
      NoticesAppend(s.finals, Final(s.next, k, WorkOf(s, t).sid, WorkOf(s, t).score));
      assert Accepted(s, r, Finished);
      AcceptedKeeps(s, r, Finished);
    } else if k !in s.scanning {
      assert SamePlaces(s, r);
      SameKeeps(s, r);
    } else if WorkOf(s, t).stage.DonePop? {
      assert Moved(s, r, [s.scanning[k]], Scan(k), Hand(t));
      MovedKeeps(s, r, [s.scanning[k]], Scan(k), Hand(t));
    } else {
      assert Moved(s, r, [s.scanning[k]], Scan(k), Late);
      MovedKeeps(s, r, [s.scanning[k]], Scan(k), Late);
    }
  }

  lemma DrainPlaces(s: State, t: Thread)
    requires PlaceInv(s) && ThreadInv(s, t)
    requires var g := WorkOf(s, t).stage; g.DoneDrain? || g.LateDrain?
    ensures PlaceInv(Worked(s, t))
  {
    hide PlaceInv;
    var r, k := Worked(s, t), WorkOf(s, t).key;
    var q := DupsOf(s, k);
    if q == [] {
      assert SamePlaces(s, r);
      SameKeeps(s, r);
    } else {
      assert q == [q[0]] + q[1..];
      var dst := if WorkOf(s, t).stage.DoneDrain? then Hand(t) else Late;
      assert Moved(s, r, [q[0]], Queue(k), dst);
      MovedKeeps(s, r, [q[0]], Queue(k), dst);
    }
  }

  lemma DroppedPlaces(s: State, t: Thread, retries: bool)
    requires PlaceInv(s) && ThreadInv(s, t) && (WorkOf(s, t).stage.FailPop? || WorkOf(s, t).stage.GiveUp?)
    ensures PlaceInv(Dropped(s, t, retries))
  {
    hide PlaceInv;
    var r, k := Dropped(s, t, retries), WorkOf(s, t).key;
    if WorkOf(s, t).stage.GiveUp? {
      assert Moved(s, r, DupsOf(s, k), Queue(k), Back);
      MovedKeeps(s, r, DupsOf(s, k), Queue(k), Back);
    } else if k !in s.scanning {
      assert SamePlaces(s, r);
      SameKeeps(s, r);
    } else {
      assert Moved(s, r, [s.scanning[k]], Scan(k), Back);
      MovedKeeps(s, r, [s.scanning[k]], Scan(k), Back);
    }
  }

  lemma PlaceStep(s: State, e: Event)
    requires ParkInv(s) && PlaceInv(s) && Step(s, e).Some?
    ensures PlaceInv(Step(s, e).value)
  {
    hide PlaceInv, Worked, Dropped, ThreadInv, Finalised, SamePlaces;
    assert ThreadInv(s, e.t);
    var w := WorkOf(s, e.t);
    if e.Works? {
      if w.stage.DoneOwn? { FinalisedPlaces(s, e.t, DoneDrain); OwnFinal(s, e.t); }
      else if w.stage.DoneFinal? { LastPlaces(s, e.t); }
      else if w.stage.DonePop? || w.stage.LatePop? { PopPlaces(s, e.t); }
      else if w.stage.DoneDrain? || w.stage.LateDrain? { DrainPlaces(s, e.t); }
      else { SubmitPlaces(s, e.t); }
    } else if e.Drops? {
      DroppedPlaces(s, e.t, e.retries);
    } else {
      QuietPlaces(s, e);
      SameKeeps(s, Step(s, e).value);
    }
  }

  lemma OwnFinal(s: State, t: Thread)
    requires WorkOf(s, t).stage.DoneOwn?
    ensures Worked(s, t) == Finalised(s, t, DoneDrain)
  {}

  lemma LastPlaces(s: State, t: Thread)
    requires PlaceInv(s) && WorkOf(s, t).stage.DoneFinal?
    ensures PlaceInv(Worked(s, t))
  {
    hide PlaceInv, Finalised;
    if WorkOf(s, t).held == [] {
      assert SamePlaces(s, Worked(s, t));
      SameKeeps(s, Worked(s, t));
    } else {
      FinalisedPlaces(s, t, DoneFinal);
    }
  }

  lemma QuietPlaces(s: State, e: Event)
    requires ParkInv(s) && Step(s, e).Some? && !e.Works? && !e.Drops?
    ensures SamePlaces(s, Step(s, e).value)
  {
    hide Worked, Dropped, Lock.Register, Lock.Acquire, Lock.Unregister, Lock.Release;
    assert ThreadInv(s, e.t);
  }

  // ---- Keys, and the completions behind the finals -------------------------------------------

  predicate Under(s: State, key: string, n: nat) { n < s.next && n in s.origin && s.origin[n] == key }

  ghost predicate HandsUnder(s: State, w: Work) {
    forall n | n in w.held :: Under(s, w.key, n)
  }

  ghost predicate KeyInv(s: State) {
    && (forall k | k in s.scanning :: Under(s, k, s.scanning[k]))
    && (forall k, n | n in DupsOf(s, k) :: Under(s, k, n))
    && (forall t :: HandsUnder(s, WorkOf(s, t)))
    && (forall f | f in s.finals :: Under(s, f.key, f.notice) && (f.key, f.sid, f.score) in s.done)
  }

  lemma KeyStep(s: State, e: Event)
    requires ParkInv(s) && KeyInv(s) && Step(s, e).Some?
    ensures KeyInv(Step(s, e).value)
  {
    hide Worked, Dropped, ThreadInv, KeyInv;
    assert ThreadInv(s, e.t);
    if e.Works? {
      KeyWorks(s, e.t);
    } else {
      KeyOthers(s, e);
    }
  }

  lemma KeyWorks(s: State, t: Thread)
    requires ThreadInv(s, t) && KeyInv(s) && InBody(WorkOf(s, t).stage)
    ensures KeyInv(Worked(s, t))
  {
    var r := Worked(s, t);
    KeyTables(s, t);
    hide Worked;
    forall u ensures HandsUnder(r, WorkOf(r, u)) {
      assert HandsUnder(s, WorkOf(s, u));
      if u != t {
        WorkedOthers(s, t, u);
        UnderMono(s, r, WorkOf(s, u));
      } else {
        OwnHands(s, t);
      }
    }
  }

  lemma UnderMono(s: State, r: State, w: Work)
    requires HandsUnder(s, w) && forall k, n | Under(s, k, n) :: Under(r, k, n)
    ensures HandsUnder(r, w)
  {}

  lemma KeyTables(s: State, t: Thread)
    requires ThreadInv(s, t) && KeyInv(s) && InBody(WorkOf(s, t).stage)
    ensures var r := Worked(s, t);
            && (forall k, n | Under(s, k, n) :: Under(r, k, n))
            && (forall k | k in r.scanning :: Under(r, k, r.scanning[k]))
            && (forall k, n | n in DupsOf(r, k) :: Under(r, k, n))
            && (forall f | f in r.finals :: Under(r, f.key, f.notice) && (f.key, f.sid, f.score) in r.done)
  {
    KeyScans(s, t);
    KeyDups(s, t);
    KeyFinals(s, t);
  }

  lemma KeyScans(s: State, t: Thread)
    requires ThreadInv(s, t) && KeyInv(s) && InBody(WorkOf(s, t).stage)
    ensures var r := Worked(s, t);
            && (forall k, n | Under(s, k, n) :: Under(r, k, n))
            && (forall k | k in r.scanning :: Under(r, k, r.scanning[k]))
  {}

  lemma KeyDups(s: State, t: Thread)
    requires ThreadInv(s, t) && KeyInv(s) && InBody(WorkOf(s, t).stage)
    ensures var r := Worked(s, t); forall k, n | n in DupsOf(r, k) :: Under(r, k, n)
  {
    var r := Worked(s, t);
    assert forall k, n | Under(s, k, n) :: Under(r, k, n);
  }

  lemma KeyFinals(s: State, t: Thread)
    requires ThreadInv(s, t) && KeyInv(s) && InBody(WorkOf(s, t).stage)
    ensures var r := Worked(s, t); forall f | f in r.finals :: Under(r, f.key, f.notice) && (f.key, f.sid, f.score) in r.done
  {
    var r := Worked(s, t);
    assert forall k, n | Under(s, k, n) :: Under(r, k, n);
    assert HandsUnder(s, WorkOf(s, t));
  }

  lemma OwnHands(s: State, t: Thread)
    requires ThreadInv(s, t) && KeyInv(s) && InBody(WorkOf(s, t).stage)
    ensures HandsUnder(Worked(s, t), WorkOf(Worked(s, t), t))
  {
    var r := Worked(s, t);
    assert forall k, n | Under(s, k, n) :: Under(r, k, n);
    assert HandsUnder(s, WorkOf(s, t));
  }

  lemma KeyOthers(s: State, e: Event)
    requires ThreadInv(s, e.t) && KeyInv(s) && Step(s, e).Some? && !e.Works?
    ensures KeyInv(Step(s, e).value)
  {
    hide Dropped, Step;
    var r := Step(s, e).value;
    QuietKeys(s, e);
    forall u ensures HandsUnder(r, WorkOf(r, u)) {
      assert HandsUnder(s, WorkOf(s, u));
      if u != e.t {
        OthersKept(s, e, u);
        UnderMono(s, r, WorkOf(s, u));
      }
    }
  }

  /** A step outside the body takes things away at most. */
  lemma QuietKeys(s: State, e: Event)
    requires ThreadInv(s, e.t) && KeyInv(s) && Step(s, e).Some? && !e.Works?
    ensures var r := Step(s, e).value;
            && r.origin == s.origin && r.next == s.next && r.finals == s.finals && s.done <= r.done && WorkOf(r, e.t).held == []
            && (forall k | k in r.scanning :: k in s.scanning && r.scanning[k] == s.scanning[k])
            && (forall k, n | n in DupsOf(r, k) :: n in DupsOf(s, k))
  {
    hide Dropped;
    if e.Drops? { DroppedKeys(s, e.t, e.retries); DroppedFrame(s, e.t, e.retries); }
  }

  lemma DroppedKeys(s: State, t: Thread, retries: bool)
    requires ThreadInv(s, t) && KeyInv(s) && (WorkOf(s, t).stage.FailPop? || WorkOf(s, t).stage.GiveUp?)
    ensures var r := Dropped(s, t, retries);
            && r.origin == s.origin && r.next == s.next && r.finals == s.finals && WorkOf(r, t).held == []
            && (forall k | k in r.scanning :: k in s.scanning && r.scanning[k] == s.scanning[k])
            && forall k, n | n in DupsOf(r, k) :: n in DupsOf(s, k)
  {}
}
