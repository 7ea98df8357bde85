/** The scan/duplicate protocol: the main results, over all interleavings. */
module DuplicatesTheorems {
  import opened Prelude
  import opened Duplicates
  import opened DuplicatesProofs
  import Lock = ScanLock

  /** A key is not scanned and abandoned at once. */
  ghost predicate Apart(s: State) { forall key | key in s.abandoned :: key !in s.scanning }

  lemma ApartStep(s: State, e: Event)
    requires Apart(s) && Step(s, e).Some?
    ensures Apart(Step(s, e).value)
  {}

  ghost predicate Inv(s: State) { LockInv(s) && ParkInv(s) && PlaceInv(s) && KeyInv(s) && Apart(s) }

  lemma StartInv()
    ensures Inv(START)
  {
    Lock.StartInv();
    forall t ensures ThreadAgrees(START, t) && ThreadInv(START, t) {}
    forall p ensures Content(START, p) == [] {}
  }

  lemma {:induction false} RunInv(events: seq<Event>)
    ensures Run(events).Some? ==> Inv(Run(events).value)
  {
    hide Step, LockInv, ParkInv, PlaceInv, KeyInv, Apart;
    if events == [] {
      StartInv();
    } else {
      var e := events[|events| - 1];
      RunInv(events[..|events| - 1]);
      var before := Run(events[..|events| - 1]);
      if before.Some? && Step(before.value, e).Some? {
        LockStep(before.value, e);
        ParkStep(before.value, e);
        PlaceStep(before.value, e);
        KeyStep(before.value, e);
        ApartStep(before.value, e);
      }
    }
  }

  /** Some thread is between entering and leaving the lock of the key. */
  ghost predicate Busy(s: State, key: string) {
    exists t :: Holds(WorkOf(s, t).stage) && WorkOf(s, t).key == key
  }

  /** Whenever nobody is in the lock of a key, duplicates wait there only for a scan in progress,
      unless the failure path dropped that scan and nobody has started another. */
  lemma NeverStranded(events: seq<Event>, key: string)
    requires Run(events).Some?
    ensures var s := Run(events).value;
            !Busy(s, key) && key !in s.abandoned && DupsOf(s, key) != [] ==> key in s.scanning
  {
    RunInv(events);
    var s := Run(events).value;
    assert Parked(s, key);
    if DupsOf(s, key) != [] && !Tracked(s, key) {
      var t :| Draining(s, t, key);
      assert Busy(s, key);
    }
  }

  /** Parked under a key that nobody scans, with nobody in the key's lock to drain it. */
  ghost predicate Stranded(s: State, key: string) { !Busy(s, key) && DupsOf(s, key) != [] && key !in s.scanning }

  /** Exactly when duplicates are stranded: they are there, nobody is in the lock, and the failure
      path dropped the scan they were parked under. */
  lemma StrandedExactly(events: seq<Event>, key: string)
    requires Run(events).Some?
    ensures var s := Run(events).value;
            Stranded(s, key) <==> !Busy(s, key) && DupsOf(s, key) != [] && key in s.abandoned
  {
    NeverStranded(events, key);
    RunInv(events);
  }

  /** A thread of completed (for a scan it found) or timed_out leaves the lock with the key's scan
      and its duplicate queue both gone. */
  lemma LeavesNothing(events: seq<Event>, t: Thread)
    requires Run(events).Some?
    ensures var s := Run(events).value; var w := WorkOf(s, t);
            w.stage == Exit(true, false) ==> DupsOf(s, w.key) == [] && w.key !in s.scanning && w.held == []
  {
    RunInv(events);
    assert ThreadInv(Run(events).value, t);
  }

  /** A scan in progress ends only in completed, timed_out or the failure path, and only the latter
      does not go on to empty the duplicate queue. */
  lemma EndsOnlyThrough(s: State, e: Event, key: string)
    requires Step(s, e).Some? && key in s.scanning && key !in Step(s, e).value.scanning
    ensures var w, v := WorkOf(s, e.t), WorkOf(Step(s, e).value, e.t);
            && w.key == key
            && (|| (e.Works? && w.stage.DonePop? && v == w.(stage := DoneOwn, held := [s.scanning[key]]))
                || (e.Works? && w.stage.LatePop? && v.stage == LateDrain)
                || (e.Drops? && w.stage.FailPop? && key in Step(s, e).value.abandoned))
  {
    hide Lock.Register, Lock.Acquire, Lock.Unregister, Lock.Release;
  }

  /** A notice is parked only under a key being scanned, or one whose scan the failure path took
      away after the look. */
  lemma ParksUnderScan(events: seq<Event>, t: Thread)
    requires Run(events).Some? && WorkOf(Run(events).value, t).stage == SubmitPark
    ensures var s := Run(events).value; var k := WorkOf(s, t).key; k in s.scanning || k in s.abandoned
  {
    RunInv(events);
    assert ThreadInv(Run(events).value, t);
  }

  /** What a thread of completed holds it lets go only by finalising it, first come first, with the
      key, sid and score of the completion it handles. */
  lemma HeldIsFinalised(s: State, e: Event, t: Thread, n: nat)
    requires Inv(s) && Step(s, e).Some? && n in WorkOf(s, t).held && n !in WorkOf(Step(s, e).value, t).held
    ensures var r, w := Step(s, e).value, WorkOf(s, t);
            && e == Works(t) && w.held[0] == n && WorkOf(r, t).held == w.held[1..]
            && r.finals == s.finals + [Final(n, w.key, w.sid, w.score)]
  {
    hide LockInv, PlaceInv, KeyInv;
    assert ThreadInv(s, t);
    if e.t != t { OthersKept(s, e, t); }
  }

  /** Every accepted notice is in exactly one place and finalised at most once, under its own key,
      with the sid and score of a completion delivered for that key. */
  lemma AcceptedOnce(events: seq<Event>, n: nat)
    requires Run(events).Some? && n < Run(events).value.next
    ensures var s := Run(events).value;
            && (exists p :: At(s, p, n)) && (forall p, q :: At(s, p, n) && At(s, q, n) ==> p == q)
            && (forall i, j | 0 <= i < |s.finals| && 0 <= j < |s.finals| && s.finals[i].notice == s.finals[j].notice :: i == j)
            && forall f | f in s.finals ::
                 f.notice in s.origin && s.origin[f.notice] == f.key && (f.key, f.sid, f.score) in s.done
  {
    RunInv(events);
    var s := Run(events).value;
    assert Unique(s, n);
    assert Distinct(Content(s, Finished));
    forall i, j | 0 <= i < |s.finals| && 0 <= j < |s.finals| && s.finals[i].notice == s.finals[j].notice ensures i == j {
      assert Content(s, Finished)[i] == Content(s, Finished)[j];
    }
  }

  /** When no thread is at work and no scan is in progress, every accepted notice was finalised,
      dropped by a timeout, handed back by the failure path, or waits where that path abandoned it. */
  lemma QuietIsDone(events: seq<Event>, n: nat)
    requires Run(events).Some? && n < Run(events).value.next
    requires var s := Run(events).value; s.scanning == map[] && forall t :: WorkOf(s, t).stage == Idle
    ensures var s := Run(events).value;
            At(s, Finished, n) || At(s, Late, n) || At(s, Back, n) || exists key :: key in s.abandoned && At(s, Queue(key), n)
  {
    AcceptedOnce(events, n);
    RunInv(events);
    var s := Run(events).value;
    forall t ensures WorkOf(s, t).held == [] { assert ThreadInv(s, t); }
    var p :| At(s, p, n);
    if p.Queue? {
      assert !Busy(s, p.key);
      NeverStranded(events, p.key);
    }
  }

  // ---- A run that strands a duplicate ----------------------------------------------------------

  lemma Extend(events: seq<Event>, s: State, e: Event)
    requires Run(events) == Some(s) && Step(s, e).Some?
    ensures Run(events + [e]) == Step(s, e)
  {
    assert (events + [e])[..|events|] == events;
  }

  /** Thread `t` submits a notice under the key and leaves the lock. */
  function Submission(t: Thread, key: string): seq<Event> {
    [Submits(t, key), Enters(t), Works(t), Works(t), Unregisters(t), Releases(t)]
  }

  /** Nobody uses any lock. */
  ghost predicate LockFree(s: State) {
    s.locks.table == map[] && s.locks.owner == map[] && forall t :: Lock.PhaseOf(s.locks, t).Outside?
  }

  /** Thread `t` is in the body for the key, and nobody else uses the lock. */
  ghost predicate Alone(s: State, t: Thread, key: string, l: nat) {
    && s.locks.table == map[key := Lock.Slot(1, l)] && s.locks.owner == map[l := t]
    && Lock.PhaseOf(s.locks, t) == Lock.Inside(key, l)
    && forall u | u != t :: Lock.PhaseOf(s.locks, u).Outside?
  }

  ghost predicate OnlyMoved(s: State, r: State, t: Thread) {
    forall u | u != t :: WorkOf(r, u) == WorkOf(s, u)
  }

  lemma GoesIn(s: State, t: Thread, key: string)
    requires LockFree(s) && WorkOf(s, t).stage.Idle?
    ensures Step(s, Submits(t, key)).Some? && Step(Step(s, Submits(t, key)).value, Enters(t)).Some?
    ensures var r := Step(Step(s, Submits(t, key)).value, Enters(t)).value;
            && Alone(r, t, key, s.locks.unused) && WorkOf(r, t) == Work(SubmitTest, key, "", 0, false, []) && OnlyMoved(s, r, t)
            && r.scanning == s.scanning && r.dups == s.dups && r.next == s.next
  {
    var r1 := Step(s, Submits(t, key)).value;
    assert Lock.PhaseOf(r1.locks, t) == Lock.Waiting(key, s.locks.unused);
    var r := Step(r1, Enters(t)).value;
    assert Lock.PhaseOf(r.locks, t) == Lock.Inside(key, s.locks.unused);
    assert r.locks.table == map[key := Lock.Slot(1, s.locks.unused)] && r.locks.owner == map[s.locks.unused := t];
    forall u | u != t ensures Lock.PhaseOf(r.locks, u).Outside? {
      OthersKept(s, Submits(t, key), u);
      OthersKept(r1, Enters(t), u);
    }
  }

  lemma LooksAndActs(s: State, t: Thread, key: string, l: nat)
    requires Alone(s, t, key, l) && WorkOf(s, t) == Work(SubmitTest, key, "", 0, false, [])
    ensures Step(s, Works(t)).Some? && Step(Step(s, Works(t)).value, Works(t)).Some?
    ensures var r := Step(Step(s, Works(t)).value, Works(t)).value; var known := key in s.scanning;
            && Alone(r, t, key, l) && WorkOf(r, t) == Work(Exit(false, !known), key, "", 0, false, []) && OnlyMoved(s, r, t)
            && r.next == s.next + 1 && r.scanning == (if known then s.scanning else s.scanning[key := s.next])
            && r.dups == (if known then s.dups[key := DupsOf(s, key) + [s.next]] else s.dups)
  {
    var r1 := Step(s, Works(t)).value;
    assert WorkOf(r1, t).stage == if key in s.scanning then SubmitPark else SubmitAdd;
    assert r1.scanning == s.scanning && r1.dups == s.dups && r1.next == s.next && r1.locks == s.locks;
  }

  lemma GoesOut(s: State, t: Thread, key: string, l: nat, calls: bool)
    requires Alone(s, t, key, l) && WorkOf(s, t) == Work(Exit(false, calls), key, "", 0, false, [])
    ensures Step(s, Unregisters(t)).Some? && Step(Step(s, Unregisters(t)).value, Releases(t)).Some?
    ensures var r := Step(Step(s, Unregisters(t)).value, Releases(t)).value;
            && LockFree(r) && WorkOf(r, t) == (if calls then Work(SubmitCall, key, "", 0, false, []) else RESTING) && OnlyMoved(s, r, t)
            && r.scanning == s.scanning && r.dups == s.dups && r.next == s.next
  {
    var r1 := Step(s, Unregisters(t)).value;
    assert r1.locks.table == map[] && Lock.PhaseOf(r1.locks, t) == Lock.Leaving(key, l);
    var r := Step(r1, Releases(t)).value;
    assert r.locks.owner == map[];
    forall u ensures Lock.PhaseOf(r.locks, u).Outside? {
      if u != t {
        OthersKept(s, Unregisters(t), u);
        OthersKept(r1, Releases(t), u);
      }
    }
  }

  lemma ExtendTwice(events: seq<Event>, s: State, e: Event, f: Event)
    requires Run(events) == Some(s) && Step(s, e).Some? && Step(Step(s, e).value, f).Some?
    ensures Run(events + [e, f]) == Step(Step(s, e).value, f)
  {
    hide Run, Step;
    Extend(events, s, e);
    Extend(events + [e], Step(s, e).value, f);
    assert events + [e] + [f] == events + [e, f];
  }

  /** What a submission that nobody interrupts comes to. */
  lemma Submitted(events: seq<Event>, s: State, t: Thread, key: string)
    requires Run(events) == Some(s) && LockFree(s) && WorkOf(s, t).stage.Idle?
    ensures Run(events + Submission(t, key)).Some?
    ensures var r := Run(events + Submission(t, key)).value; var known := key in s.scanning;
            && LockFree(r) && OnlyMoved(s, r, t)
            && WorkOf(r, t) == (if known then RESTING else Work(SubmitCall, key, "", 0, false, []))
            && r.next == s.next + 1 && r.scanning == (if known then s.scanning else s.scanning[key := s.next])
            && r.dups == (if known then s.dups[key := DupsOf(s, key) + [s.next]] else s.dups)
  {
    hide Run, Step, LockFree, Alone;
    GoesIn(s, t, key);
    ExtendTwice(events, s, Submits(t, key), Enters(t));
    var e2 := events + [Submits(t, key), Enters(t)];
    var s2 := Run(e2).value;
    LooksAndActs(s2, t, key, s.locks.unused);
    ExtendTwice(e2, s2, Works(t), Works(t));
    var e4 := e2 + [Works(t), Works(t)];
    var s4 := Run(e4).value;
    GoesOut(s4, t, key, s.locks.unused, key !in s.scanning);
    ExtendTwice(e4, s4, Unregisters(t), Releases(t));
    assert e4 + [Unregisters(t), Releases(t)] == events + Submission(t, key);
  }

  /** A scan is started, a second notice is parked under it, and then the submission of the first
      fails, to be tried again or, for a corrupted filestore, not at all: everybody is idle, no scan
      is in progress, and the second notice still waits. */
  lemma FailureStrands(key: string) returns (events: seq<Event>)
    ensures Run(events).Some?
    ensures var s := Run(events).value;
            && (forall t :: WorkOf(s, t).stage == Idle) && s.scanning == map[]
            && Stranded(s, key) && At(s, Queue(key), 1)
  {
    hide Run, Step, Submission, LockFree;
    StartRuns();
    Submitted([], START, 0, key);
    var e1 := [] + Submission(0, key);
    var s1 := Run(e1).value;
    Submitted(e1, s1, 1, key);
    var e2 := e1 + Submission(1, key);
    var s2 := Run(e2).value;
    FailsOnce(e2, s2, key);
    events := e2 + [CallEnds(0, true)] + [Drops(0, true)];
  }

  lemma StartRuns()
    ensures Run([]) == Some(START) && LockFree(START) && forall t :: WorkOf(START, t).stage == Idle
  {}

  lemma FailsOnce(events: seq<Event>, s: State, key: string)
    requires Run(events) == Some(s) && WorkOf(s, 0).stage == SubmitCall && WorkOf(s, 0).key == key && key in s.scanning
    ensures var r := Run(events + [CallEnds(0, true)] + [Drops(0, true)]);
            && r.Some? && r.value.scanning == s.scanning - {key} && r.value.dups == s.dups && WorkOf(r.value, 0) == RESTING
            && OnlyMoved(s, r.value, 0)
  {
    Extend(events, s, CallEnds(0, true));
    Extend(events + [CallEnds(0, true)], Step(s, CallEnds(0, true)).value, Drops(0, true));
  }
}
