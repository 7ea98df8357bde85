/** Every run that keeps delivering the dispatcher's replies and looking at the time ends a submission. */
module DispatchInevitable {
  import opened Prelude
  import opened DispatchModel
  import opened DispatchInvariant
  import opened DispatchUpdate
  import opened DispatchEvents
  import opened DispatchSubmit
  import opened DispatchTimeouts
  import opened DispatchSweep
  import opened DispatchProgress
  import opened DispatchRun
  import opened DispatchTheorems
  import opened DispatchCompletion
  import opened Sums

  // ---- No step gives a submission more to do ---------------------------------------------------

  /** The step brings no file of the submission. */
  ghost predicate Quiet(step: Step, sid: Sid) {
    step.event.Submit? ==> step.event.m.sid != sid
  }

  ghost predicate Waiting(cfg: Config, s: State, sid: Sid, srl: Srl, n: Name) {
    Has(s, sid, srl) && Waits(cfg, At(s, sid, srl), n) && Owed(s.pending, sid, srl, n)
  }

  /** No file of the submission has come or got more to do, and a service that still remains, and had
      been answered by the dispatcher, is still waited for and still has the answer coming. */
  ghost predicate Declines(cfg: Config, s: State, s': State, sid: Sid) {
    && s.sent <= s'.sent
    && (forall srl | Has(s', sid, srl) :: Has(s, sid, srl) && Fewer(cfg, At(s, sid, srl), At(s', sid, srl)))
    && (forall srl, n | Has(s', sid, srl) && n in Remaining(cfg, At(s', sid, srl)) && Waiting(cfg, s, sid, srl, n) ::
          Waiting(cfg, s', sid, srl, n))
  }

  lemma DeclinesTrans(cfg: Config, s0: State, s1: State, s2: State, sid: Sid)
    requires Declines(cfg, s0, s1, sid) && Declines(cfg, s1, s2, sid)
    ensures Declines(cfg, s0, s2, sid)
  {
    hide Remaining, Waiting;
  }

  lemma SameDeclines(cfg: Config, s: State, sid: Sid)
    ensures Declines(cfg, s, s, sid)
  {
    hide Remaining;
  }

  /** If replies are only added, what remains keeps waiting. */
  lemma LessensDeclines(cfg: Config, s: State, s': State, sid: Sid)
    requires cfg.Valid() && Inv(cfg, s, NoFocus) && Inv(cfg, s', NoFocus) && s.sent <= s'.sent && s.pending <= s'.pending
    requires forall srl | Has(s', sid, srl) :: Has(s, sid, srl) && Fewer(cfg, At(s, sid, srl), At(s', sid, srl))
    ensures Declines(cfg, s, s', sid)
  {
    hide Inv, Remaining, Waits, EntryOk;
    forall srl, n | Has(s', sid, srl) && n in Remaining(cfg, At(s', sid, srl)) && Waiting(cfg, s, sid, srl, n)
      ensures Waiting(cfg, s', sid, srl, n)
    {
      StillWaits(cfg, s, s', sid, srl, n);
    }
  }

  lemma StillWaits(cfg: Config, s: State, s': State, sid: Sid, srl: Srl, n: Name)
    requires cfg.Valid() && Inv(cfg, s, NoFocus) && Inv(cfg, s', NoFocus)
    requires Has(s, sid, srl) && Waits(cfg, At(s, sid, srl), n)
    requires Has(s', sid, srl) && Fewer(cfg, At(s, sid, srl), At(s', sid, srl)) && n in Remaining(cfg, At(s', sid, srl))
    ensures Waits(cfg, At(s', sid, srl), n)
  {
    hide Inv, Remaining, Waits, EntryOk;
    EntryFacts(cfg, s, sid, srl);
    EntryFacts(cfg, s', sid, srl);
    WaitsRemains(cfg, At(s, sid, srl), n);
    RemainsWaits(cfg, At(s', sid, srl), n);
  }

  /** The submission's files, all requests and all replies are the same. */
  ghost predicate SameFor(s: State, s': State, sid: Sid) {
    && s'.sent == s.sent && s'.pending == s.pending
    && forall srl :: (Has(s', sid, srl) <==> Has(s, sid, srl)) && (Has(s, sid, srl) ==> At(s', sid, srl) == At(s, sid, srl))
  }

  lemma PutElsewhere(s: State, sid1: Sid, srl1: Srl, e: Entry, sid: Sid)
    requires sid1 in s.entries && sid1 != sid
    ensures SameFor(s, Put(s, sid1, srl1, e), sid)
  {}

  lemma HeardElsewhere(s: State, sid1: Sid, psrl: Srl, kid: Srl, sid: Sid)
    requires sid1 != sid
    ensures var r := Heard(s, sid1, psrl, kid);
            SameFor(s, r, sid) && r.completed == s.completed && forall sid2 :: sid2 in r.entries <==> sid2 in s.entries
  {
    hide Put, SameFor;
    if Has(s, sid1, psrl) {
      PutSame(s, sid1, psrl, At(s, sid1, psrl).(extracted := At(s, sid1, psrl).extracted - {kid}));
      PutElsewhere(s, sid1, psrl, At(s, sid1, psrl).(extracted := At(s, sid1, psrl).extracted - {kid}), sid);
    } else {
      SameForItself(s, sid);
    }
  }

  lemma SameForItself(s: State, sid: Sid)
    ensures SameFor(s, s, sid)
  {}

  lemma OpenElsewhere(s: State, sid1: Sid, sid: Sid)
    requires sid1 != sid
    ensures SameFor(s, Open(s, sid1), sid) && sid1 in Open(s, sid1).entries && sid1 in Open(s, sid1).completed
  {}

  lemma EnterElsewhere(cfg: Config, s: State, m: Submission, depth: int, sid: Sid)
    requires m.sid != sid && m.sid in s.entries && (m.psrl.Some? ==> m.psrl.value in s.entries[m.sid])
    ensures SameFor(s, Enter(cfg, s, m, depth), sid)
  {
    hide NewEntry, Adopt, SameFor;
    var s1 := if m.psrl.Some? then Put(s, m.sid, m.psrl.value, Adopt(At(s, m.sid, m.psrl.value), m.srl)) else s;
    var s2 := Put(s1, m.sid, m.srl, NewEntry(cfg, s, m, depth));
    if m.psrl.Some? { PutElsewhere(s, m.sid, m.psrl.value, Adopt(At(s, m.sid, m.psrl.value), m.srl), sid); }
    PutElsewhere(s1, m.sid, m.srl, NewEntry(cfg, s, m, depth), sid);
    NextSame(s2, Enter(cfg, s, m, depth), sid);
    SameForItself(s, sid);
    SameForTrans(s, s1, s2, sid);
    SameForTrans(s, s2, Enter(cfg, s, m, depth), sid);
  }

  lemma NextSame(s: State, s': State, sid: Sid)
    requires s' == s.(next := s'.next, asked := s'.asked)
    ensures SameFor(s, s', sid)
  {}

  lemma SameForTrans(s0: State, s1: State, s2: State, sid: Sid)
    requires SameFor(s0, s1, sid) && SameFor(s1, s2, sid)
    ensures SameFor(s0, s2, sid)
  {}

  /** Another submission's file leaves this submission alone. */
  lemma ArrivedElsewhere(cfg: Config, s: State, m: Submission, sid: Sid)
    requires m.sid != sid && (m.sid in s.entries ==> m.sid in s.completed)
    ensures SameFor(s, Arrived(cfg, s, m).0, sid)
  {
    hide SameFor, Enter, Open, Heard;
    SameForItself(s, sid);
    var s1 := if m.psrl.Some? then Heard(s, m.sid, m.psrl.value, m.srl) else s;
    if m.psrl.Some? { HeardElsewhere(s, m.sid, m.psrl.value, m.srl, sid); }
    if m.sid in s1.entries || m.psrl.None? {
      var s2 := if m.sid in s1.entries then s1 else Open(s1, m.sid);
      OpenElsewhere(s1, m.sid, sid);
      SameForItself(s1, sid);
      SameForTrans(s, s1, s2, sid);
      var depth := if m.psrl.Some? then m.depth + 1 else 0;
      if m.psrl.Some? ==> m.psrl.value in s2.entries[m.sid] {
        EnterElsewhere(cfg, s2, m, depth, sid);
        SameForTrans(s, s2, Enter(cfg, s2, m, depth), sid);
      }
    }
  }

  lemma SubmitDeclines(cfg: Config, s: State, step: Step, s': State, sid: Sid)
    requires Follows(cfg, s, step, s') && step.event.Submit? && step.event.m.sid != sid
    ensures Declines(cfg, s, s', sid)
  {
    hide Inv, Arrived, Update, Acknowledged, DispatchEvents.Serviced, CheckTimeouts, Declines, KeepsDone, Fresh;
    var m, now, o := step.event.m, step.now, step.o;
    NextKeeps(cfg, s, step);
    TimePasses(cfg, s, now);
    var s1 := WithClock(s, now);
    ArrivedKeeps(cfg, s1, m);
    ArrivedElsewhere(cfg, s1, m, sid);
    var (s2, entered) := Arrived(cfg, s1, m);
    if entered {
      InvReady(cfg, s2, Focus(m.sid, m.srl, {}), m.sid);
      UpdateMoves(cfg, s2, m.sid, m.srl, now, o);
    }
    assert s' == if entered then Update(cfg, s2, m.sid, m.srl, now, o) else s2;
    forall srl | Has(s', sid, srl) ensures Has(s, sid, srl) && Fewer(cfg, At(s, sid, srl), At(s', sid, srl)) {
      if entered { DoneAt(s2, s', sid, srl); } else { SameAlike(At(s, sid, srl)); }
      AlikeFewer(cfg, At(s, sid, srl), At(s', sid, srl));
    }
    LessensDeclines(cfg, s, s', sid);
  }

  lemma DoneAt(s: State, s': State, sid: Sid, srl: Srl)
    requires KeepsDone(s, s') && Has(s', sid, srl)
    ensures Has(s, sid, srl) && Alike(At(s, sid, srl), At(s', sid, srl))
  {}

  lemma SameAlike(e: Entry)
    ensures Alike(e, e)
  {}

  lemma AckFewer(cfg: Config, e: Entry, n: Name, st: nat)
    requires st < |e.dispatched| && st < |e.acked|
    ensures Fewer(cfg, e, e.(dispatched := e.dispatched[st := e.dispatched[st] - {n}], acked := e.acked[st := e.acked[st] + {n}]))
    ensures Fewer(cfg, e, e)
  {}

  lemma AckDeclines(cfg: Config, s: State, step: Step, s': State, sid: Sid)
    requires Follows(cfg, s, step, s') && step.event.Ack?
    ensures Declines(cfg, s, s', sid)
  {
    hide Inv, Submitted, DispatchEvents.Serviced, CheckTimeouts, Declines, Remaining, Arm;
    NextKeeps(cfg, s, step);
    TimePasses(cfg, s, step.now);
    var Ack(sid1, srl1, name, seconds) := step.event;
    var s1 := WithClock(s, step.now);
    AcknowledgedKeeps(cfg, s1, sid1, srl1, name, seconds, step.now);
    assert s' == Acknowledged(cfg, s1, sid1, srl1, name, seconds, step.now);
    forall srl | Has(s', sid, srl) ensures Has(s, sid, srl) && Fewer(cfg, At(s, sid, srl), At(s', sid, srl)) {
      AckEntry(cfg, s1, sid1, srl1, name, seconds, step.now, sid, srl);
    }
    LessensDeclines(cfg, s, s', sid);
  }

  lemma AckEntry(cfg: Config, s: State, sid1: Sid, srl1: Srl, name: Name, seconds: real, now: real, sid: Sid, srl: Srl)
    requires cfg.Valid() && (sid1 in s.entries ==> Ready(cfg, s, sid1))
    requires Has(Acknowledged(cfg, s, sid1, srl1, name, seconds, now), sid, srl)
    ensures Has(s, sid, srl) && Fewer(cfg, At(s, sid, srl), At(Acknowledged(cfg, s, sid1, srl1, name, seconds, now), sid, srl))
  {
    hide Fewer, Arm;
    if Has(s, sid1, srl1) { assert Shaped(cfg, s.entries[sid1][srl1]); }
    var e := At(s, sid, srl);
    if name in cfg.services && cfg.services[name].stage < |e.dispatched| && cfg.services[name].stage < |e.acked| {
      AckFewer(cfg, e, name, cfg.services[name].stage);
    } else {
      SameFewer(cfg, e);
    }
  }

  lemma SameFewer(cfg: Config, e: Entry)
    ensures Fewer(cfg, e, e)
  {}

  lemma ServiceDeclines(cfg: Config, s: State, step: Step, s': State, sid: Sid)
    requires Follows(cfg, s, step, s') && step.event.Service?
    ensures Declines(cfg, s, s', sid)
  {
    hide Inv, Submitted, Acknowledged, DispatchEvents.Serviced, CheckTimeouts, Declines, Remaining, Fewer;
    NextKeeps(cfg, s, step);
    TimePasses(cfg, s, step.now);
    ServicedLessens(cfg, WithClock(s, step.now), step.event.r, step.now, step.o);
    LessensDeclines(cfg, s, s', sid);
  }

  lemma CheckDeclines(cfg: Config, s: State, step: Step, s': State, sid: Sid)
    requires Follows(cfg, s, step, s') && step.event.Check?
    ensures Declines(cfg, s, s', sid)
  {
    hide Inv, Submitted, Acknowledged, DispatchEvents.Serviced, Sweep, SweepChildren, Declines, Remaining, Fewer, Goes;
    NextKeeps(cfg, s, step);
    TimePasses(cfg, s, step.now);
    var s1 := WithClock(s, step.now);
    if step.now - s.lastCheck >= cfg.updateInterval {
      PassGoes(cfg, s1, step.now, step.o);
      GoesLessens(cfg, s1, s');
      GoesPending(s1, s');
    } else {
      SameLessens(cfg, s1, s');
    }
    LessensDeclines(cfg, s, s', sid);
  }

  lemma GoesPending(s: State, s': State)
    requires Goes(s, s')
    ensures s.pending <= s'.pending
  {}

  /** The one reply that is taken away settles its service. */
  lemma DeliverDeclines(cfg: Config, s: State, step: Step, s': State, sid: Sid)
    requires Follows(cfg, s, step, s') && step.event.Deliver?
    ensures Declines(cfg, s, s', sid)
  {
    hide Inv, Next, Remaining, Waits, EntryOk, Over, Fewer;
    var r := step.event.own;
    NextKeeps(cfg, s, step);
    Delivered(cfg, s, step, s');
    forall srl, n | Has(s', sid, srl) && n in Remaining(cfg, At(s', sid, srl)) && Waiting(cfg, s, sid, srl, n)
      ensures Waiting(cfg, s', sid, srl, n)
    {
      StillWaits(cfg, s, s', sid, srl, n);
      if r.sid == sid && r.srl == srl && r.name == n {
        EntryFacts(cfg, s, sid, srl);
        WaitsRemains(cfg, At(s, sid, srl), n);
        WaitsKnown(cfg, At(s, sid, srl), n);
        OverSettles(cfg, s, s', sid, srl, n);
      } else {
        StillOwed(s.pending, s'.pending, r, sid, srl, n);
      }
    }
  }

  lemma StillOwed(pending: multiset<Reply>, pending': multiset<Reply>, r: Reply, sid: Sid, srl: Srl, n: Name)
    requires Owed(pending, sid, srl, n) && pending - multiset{r} <= pending' && (r.sid != sid || r.srl != srl || r.name != n)
    ensures Owed(pending', sid, srl, n)
  {
    assert forall x | x != r :: (pending - multiset{r})[x] == pending[x];
  }

  lemma StepDeclines(cfg: Config, s: State, step: Step, s': State, sid: Sid)
    requires Follows(cfg, s, step, s') && Quiet(step, sid)
    ensures Declines(cfg, s, s', sid) && Inv(cfg, s', NoFocus)
  {
    hide Inv, Next, Declines;
    NextKeeps(cfg, s, step);
    match step.event
    case Submit(_) => SubmitDeclines(cfg, s, step, s', sid);
    case Ack(_, _, _, _) => AckDeclines(cfg, s, step, s', sid);
    case Service(_) => ServiceDeclines(cfg, s, step, s', sid);
    case Deliver(_, _, _, _, _) => DeliverDeclines(cfg, s, step, s', sid);
    case Check => CheckDeclines(cfg, s, step, s', sid);
  }

  // ---- How much there is to do -------------------------------------------------------------------

  /** What a remaining service may still cost: its requests, and one if no answer is coming yet. */
  ghost function Cost(cfg: Config, s: State, sid: Sid, srl: Srl, n: Name): nat {
    if !Has(s, sid, srl) then 0
    else 2 * Max(Budget(cfg, s, At(s, sid, srl).born, n), 0) + if Waiting(cfg, s, sid, srl, n) then 1 else 2
  }

  ghost function CostOf(cfg: Config, s: State, sid: Sid, srl: Srl): Name -> nat {
    n => Cost(cfg, s, sid, srl, n)
  }

  ghost function FileCost(cfg: Config, s: State, sid: Sid, srl: Srl): nat {
    if !Has(s, sid, srl) then 0 else 1 + Sum(Remaining(cfg, At(s, sid, srl)), CostOf(cfg, s, sid, srl))
  }

  ghost function FileCostOf(cfg: Config, s: State, sid: Sid): Srl -> nat {
    srl => FileCost(cfg, s, sid, srl)
  }

  /** What the submission may still cost. */
  ghost function Potential(cfg: Config, s: State, sid: Sid): nat {
    if sid in s.entries then Sum(s.entries[sid].Keys, FileCostOf(cfg, s, sid)) else 0
  }

  lemma CostFalls(cfg: Config, s: State, s': State, sid: Sid, srl: Srl, n: Name)
    requires Declines(cfg, s, s', sid) && Has(s', sid, srl) && n in Remaining(cfg, At(s', sid, srl))
    ensures Cost(cfg, s', sid, srl, n) <= Cost(cfg, s, sid, srl, n)
  {
    hide Remaining, Waiting;
  }

  lemma FileCostFalls(cfg: Config, s: State, s': State, sid: Sid, srl: Srl)
    requires Declines(cfg, s, s', sid) && Has(s', sid, srl)
    ensures FileCost(cfg, s', sid, srl) <= FileCost(cfg, s, sid, srl)
  {
    hide Remaining, Cost;
    forall n | n in Remaining(cfg, At(s', sid, srl)) ensures CostOf(cfg, s', sid, srl)(n) <= CostOf(cfg, s, sid, srl)(n) {
      CostFalls(cfg, s, s', sid, srl, n);
    }
    NoGreater(Remaining(cfg, At(s, sid, srl)), CostOf(cfg, s, sid, srl), Remaining(cfg, At(s', sid, srl)), CostOf(cfg, s', sid, srl));
  }

  lemma PotentialFalls(cfg: Config, s: State, s': State, sid: Sid)
    requires Declines(cfg, s, s', sid) && Inv(cfg, s', NoFocus)
    ensures Potential(cfg, s', sid) <= Potential(cfg, s, sid) && (sid in s'.entries ==> sid in s.entries)
  {
    if sid in s'.entries {
      StillIn(cfg, s, s', sid);
      hide Declines, FileCost, Inv;
      var f, g := FileCostOf(cfg, s, sid), FileCostOf(cfg, s', sid);
      forall srl | srl in s'.entries[sid].Keys ensures g(srl) <= f(srl) { FileCostFalls(cfg, s, s', sid, srl); }
      NoGreater(s.entries[sid].Keys, f, s'.entries[sid].Keys, g);
    }
  }

  lemma StillIn(cfg: Config, s: State, s': State, sid: Sid)
    requires Declines(cfg, s, s', sid) && Inv(cfg, s', NoFocus) && sid in s'.entries
    ensures sid in s.entries && s'.entries[sid].Keys <= s.entries[sid].Keys
  {
    assert Slot(cfg, s', sid);
    hide Inv, Remaining, Waiting, Slot;
    var srl :| srl in s'.entries[sid];
    assert Has(s', sid, srl);
    forall c | c in s'.entries[sid] ensures c in s.entries[sid] { assert Has(s', sid, c); }
  }

  /** A file that was held has gone, or has less to cost. */
  ghost predicate Drops(cfg: Config, s: State, s': State, sid: Sid, srl: Srl) {
    Has(s, sid, srl) && (Has(s', sid, srl) ==> FileCost(cfg, s', sid, srl) < FileCost(cfg, s, sid, srl))
  }

  lemma PotentialDrops(cfg: Config, s: State, s': State, sid: Sid, srl: Srl)
    requires Declines(cfg, s, s', sid) && Inv(cfg, s', NoFocus) && Drops(cfg, s, s', sid, srl)
    ensures Potential(cfg, s', sid) < Potential(cfg, s, sid)
  {
    var f, g := FileCostOf(cfg, s, sid), FileCostOf(cfg, s', sid);
    assert f(srl) > 0;
    if sid in s'.entries {
      StillIn(cfg, s, s', sid);
      hide Declines, FileCost, Inv;
      forall c | c in s'.entries[sid].Keys ensures g(c) <= f(c) { FileCostFalls(cfg, s, s', sid, c); }
      Smaller(s.entries[sid].Keys, f, s'.entries[sid].Keys, g, srl);
    } else {
      Pick(s.entries[sid].Keys, f, srl);
    }
  }

  /** A service settled, or costing less, makes its file cost less. */
  lemma ServiceDrops(cfg: Config, s: State, s': State, sid: Sid, srl: Srl, n: Name)
    requires Declines(cfg, s, s', sid) && Has(s, sid, srl) && n in Remaining(cfg, At(s, sid, srl))
    requires Has(s', sid, srl) && n in Remaining(cfg, At(s', sid, srl)) ==> Cost(cfg, s', sid, srl, n) < Cost(cfg, s, sid, srl, n)
    ensures Drops(cfg, s, s', sid, srl)
  {
    if Has(s', sid, srl) {
      assert Cost(cfg, s, sid, srl, n) > 0;
      hide Remaining, Cost;
      forall n1 | n1 in Remaining(cfg, At(s', sid, srl)) ensures CostOf(cfg, s', sid, srl)(n1) <= CostOf(cfg, s, sid, srl)(n1) {
        CostFalls(cfg, s, s', sid, srl, n1);
      }
      Smaller(Remaining(cfg, At(s, sid, srl)), CostOf(cfg, s, sid, srl), Remaining(cfg, At(s', sid, srl)), CostOf(cfg, s', sid, srl), n);
    }
  }

  function PerFile(cfg: Config): nat {
    1 + |cfg.services| * (2 * cfg.maxRetries + 4)
  }

  /** A bound by the number of files, services and retries. */
  function Bound(cfg: Config, files: nat): nat {
    files * PerFile(cfg)
  }

  lemma PotentialBound(cfg: Config, s: State, sid: Sid)
    requires sid in s.entries
    ensures Potential(cfg, s, sid) <= Bound(cfg, |s.entries[sid]|)
  {
    hide FileCost, PerFile;
    var k := PerFile(cfg);
    forall srl | srl in s.entries[sid].Keys ensures FileCostOf(cfg, s, sid)(srl) <= k { FileCostBound(cfg, s, sid, srl); }
    AtMost(s.entries[sid].Keys, FileCostOf(cfg, s, sid), k);
    assert |s.entries[sid].Keys| == |s.entries[sid]|;
  }

  lemma FileCostBound(cfg: Config, s: State, sid: Sid, srl: Srl)
    ensures FileCost(cfg, s, sid, srl) <= PerFile(cfg)
  {
    if Has(s, sid, srl) {
      var names, each := Remaining(cfg, At(s, sid, srl)), 2 * cfg.maxRetries + 4;
      assert forall n | n in names :: CostOf(cfg, s, sid, srl)(n) <= each;
      AtMost(names, CostOf(cfg, s, sid, srl), each);
      assert names <= cfg.services.Keys;
      NotMore(names, cfg.services.Keys);
      assert |cfg.services.Keys| == |cfg.services|;
      Times(|names|, |cfg.services|, each);
    } else {
      Times(0, |cfg.services|, 2 * cfg.maxRetries + 4);
    }
  }

  lemma NotMore<T>(a: set<T>, b: set<T>)
    requires a <= b
    ensures |a| <= |b|
  {
    assert b == a + (b - a);
  }

  lemma Times(x: nat, y: nat, z: nat)
    requires x <= y
    ensures x * z <= y * z
  {}

  // ---- Rounds --------------------------------------------------------------------------------------

  /** The states a run goes through. */
  ghost predicate Trace(cfg: Config, states: seq<State>, steps: seq<Step>) {
    |states| == |steps| + 1 && forall i | 0 <= i < |steps| :: Follows(cfg, states[i], steps[i], states[i + 1])
  }

  predicate IsHearing(step: Step, r: Reply) {
    step.event.Deliver? && step.event.own == r
  }

  ghost predicate Hears(steps: seq<Step>, r: Reply) {
    exists i :: 0 <= i < |steps| && IsHearing(steps[i], r)
  }

  /** A stretch of a run without further files of the submission, in which every reply owed to it at
      the beginning is heard, and one pass comes late enough for everything armed at that time.
      Anything else may happen in between. */
  ghost predicate Round(cfg: Config, states: seq<State>, steps: seq<Step>, sid: Sid) {
    && Trace(cfg, states, steps)
    && (forall i | 0 <= i < |steps| :: Quiet(steps[i], sid))
    && (exists i :: 0 <= i < |steps| && IsLate(cfg, states[i], steps[i]))
    && (forall r | r in states[0].pending && r.sid == sid :: Hears(steps, r))
  }

  /** From any state of a stretch to any later one, the submission declines. */
  lemma {:induction false} TraceDeclines(cfg: Config, states: seq<State>, steps: seq<Step>, sid: Sid, i: nat, j: nat)
    requires Trace(cfg, states, steps) && (forall k | 0 <= k < |steps| :: Quiet(steps[k], sid))
    requires i <= j < |states| && Inv(cfg, states[i], NoFocus)
    ensures Declines(cfg, states[i], states[j], sid) && Inv(cfg, states[j], NoFocus)
    decreases j
  {
    hide Inv, Declines, Follows, Quiet;
    if i == j {
      SameDeclines(cfg, states[i], sid);
    } else {
      TraceDeclines(cfg, states, steps, sid, i, j - 1);
      StepDeclines(cfg, states[j - 1], steps[j - 1], states[j], sid);
      DeclinesTrans(cfg, states[i], states[j - 1], states[j], sid);
    }
  }

  /** A drop anywhere in the stretch is a drop over the whole of it. */
  lemma DropsOverall(cfg: Config, states: seq<State>, steps: seq<Step>, sid: Sid, i: nat, j: nat, srl: Srl)
    requires Trace(cfg, states, steps) && (forall k | 0 <= k < |steps| :: Quiet(steps[k], sid))
    requires i <= j < |states| && Inv(cfg, states[0], NoFocus) && Drops(cfg, states[i], states[j], sid, srl)
    ensures Potential(cfg, states[|steps|], sid) < Potential(cfg, states[0], sid)
  {
    hide Inv, Declines, Trace, Quiet, Drops, Potential;
    var last := |steps|;
    assert |states| == last + 1 by { TraceLength(cfg, states, steps); }
    TraceDeclines(cfg, states, steps, sid, 0, i);
    TraceDeclines(cfg, states, steps, sid, i, j);
    TraceDeclines(cfg, states, steps, sid, j, last);
    PotentialFalls(cfg, states[0], states[i], sid);
    PotentialDrops(cfg, states[i], states[j], sid, srl);
    PotentialFalls(cfg, states[j], states[last], sid);
  }

  lemma TraceLength(cfg: Config, states: seq<State>, steps: seq<Step>)
    requires Trace(cfg, states, steps)
    ensures |states| == |steps| + 1
  {}

  /** In a round the youngest file makes progress, so the submission costs less after it. */
  lemma RoundDrops(cfg: Config, states: seq<State>, steps: seq<Step>, sid: Sid)
    requires cfg.Valid() && Round(cfg, states, steps, sid) && Inv(cfg, states[0], NoFocus) && sid in states[0].entries
    ensures Potential(cfg, states[|steps|], sid) < Potential(cfg, states[0], sid)
  {
    var s := states[0];
    assert Slot(cfg, s, sid);
    var y := Youngest(s.entries[sid]);
    YoungestChildless(s.entries[sid], y);
    hide Inv, Declines, Trace, Quiet, Drops, Potential, Slot, Waits, Armed;
    var n := ChildlessWaits(cfg, s, sid, y);
    if At(s, sid, y).stage >= cfg.Done() {
      DoneRound(cfg, states, steps, sid, y);
    } else if Owed(s.pending, sid, y, n) {
      OwedRound(cfg, states, steps, sid, y, n);
    } else {
      SentRound(cfg, states, steps, sid, y, n);
    }
  }

  /** A file that only waits for announced children is finished by the late pass. */
  lemma DoneRound(cfg: Config, states: seq<State>, steps: seq<Step>, sid: Sid, y: Srl)
    requires cfg.Valid() && Round(cfg, states, steps, sid) && Inv(cfg, states[0], NoFocus)
    requires Has(states[0], sid, y) && At(states[0], sid, y).outstandingKids == {} && At(states[0], sid, y).stage >= cfg.Done()
    ensures Potential(cfg, states[|steps|], sid) < Potential(cfg, states[0], sid)
  {
    hide Inv, Quiet, Potential, Remaining, Waiting, IsLate, Follows, Passed;
    var i :| 0 <= i < |steps| && IsLate(cfg, states[i], steps[i]);
    TraceDeclines(cfg, states, steps, sid, 0, i);
    if Has(states[i], sid, y) {
      LatePass(cfg, states[i], steps[i], states[i + 1]);
      PassedLessens(cfg, states[i], states[i + 1]);
      TraceDeclines(cfg, states, steps, sid, i, i + 1);
      PassedDone(cfg, states[i], states[i + 1], sid, y);
      DropsOverall(cfg, states, steps, sid, i, i + 1, y);
    } else {
      DropsOverall(cfg, states, steps, sid, 0, i, y);
    }
  }

  /** A service that is owed a reply is settled by it. */
  lemma OwedRound(cfg: Config, states: seq<State>, steps: seq<Step>, sid: Sid, y: Srl, n: Name)
    requires cfg.Valid() && Round(cfg, states, steps, sid) && Inv(cfg, states[0], NoFocus)
    requires Has(states[0], sid, y) && Waits(cfg, At(states[0], sid, y), n) && Owed(states[0].pending, sid, y, n)
    ensures Potential(cfg, states[|steps|], sid) < Potential(cfg, states[0], sid)
  {
    hide Inv, Quiet, Potential, Remaining, Waiting, IsLate, Follows, Waits, EntryOk, Over, Drops;
    var s := states[0];
    var r := if Reply(sid, y, n, true) in s.pending then Reply(sid, y, n, true) else Reply(sid, y, n, false);
    assert r in s.pending && r.sid == sid;
    assert Hears(steps, r);
    var i :| 0 <= i < |steps| && IsHearing(steps[i], r);
    TraceDeclines(cfg, states, steps, sid, 0, i);
    TraceDeclines(cfg, states, steps, sid, 0, i + 1);
    Delivered(cfg, states[i], steps[i], states[i + 1]);
    EntryFacts(cfg, s, sid, y);
    WaitsRemains(cfg, At(s, sid, y), n);
    WaitsKnown(cfg, At(s, sid, y), n);
    if Has(states[i + 1], sid, y) {
      assert Has(states[i], sid, y) by { LessensAt(cfg, states[i], states[i + 1], sid, y); }
      OverSettles(cfg, states[i], states[i + 1], sid, y, n);
    }
    ServiceDrops(cfg, s, states[i + 1], sid, y, n);
    DropsOverall(cfg, states, steps, sid, 0, i + 1, y);
  }

  /** A service that is not is answered, or sent once more, by the late pass, if not settled before. */
  lemma SentRound(cfg: Config, states: seq<State>, steps: seq<Step>, sid: Sid, y: Srl, n: Name)
    requires cfg.Valid() && Round(cfg, states, steps, sid) && Inv(cfg, states[0], NoFocus)
    requires Has(states[0], sid, y) && Waits(cfg, At(states[0], sid, y), n) && !Owed(states[0].pending, sid, y, n)
    ensures Potential(cfg, states[|steps|], sid) < Potential(cfg, states[0], sid)
  {
    hide Inv, Quiet, Potential, Remaining, IsLate, Follows, Waits, EntryOk, Drops, Passed, Cost;
    var s := states[0];
    var i :| 0 <= i < |steps| && IsLate(cfg, states[i], steps[i]);
    var t, t' := states[i], states[i + 1];
    TraceDeclines(cfg, states, steps, sid, 0, i);
    TraceDeclines(cfg, states, steps, sid, 0, i + 1);
    TraceDeclines(cfg, states, steps, sid, i, i + 1);
    LatePass(cfg, t, steps[i], t');
    EntryFacts(cfg, s, sid, y);
    WaitsRemains(cfg, At(s, sid, y), n);
    if Has(t', sid, y) && n in Remaining(cfg, At(t', sid, y)) {
      StillWaits(cfg, s, t, sid, y, n);
      PassOf(cfg, t, t', sid, y, n);
      BudgetLeft(cfg, t', At(s, sid, y).born, n);
      SentCost(cfg, s, t, t', sid, y, n);
    }
    ServiceDrops(cfg, s, t', sid, y, n);
    DropsOverall(cfg, states, steps, sid, 0, i + 1, y);
  }

  lemma SentCost(cfg: Config, s: State, t: State, t': State, sid: Sid, srl: Srl, n: Name)
    requires Has(s, sid, srl) && Has(t', sid, srl) && !Owed(s.pending, sid, srl, n) && Waits(cfg, At(t', sid, srl), n)
    requires s.sent <= t.sent <= t'.sent && At(t', sid, srl).born == At(s, sid, srl).born
    requires var b := At(s, sid, srl).born; Owed(t'.pending, sid, srl, n) || Budget(cfg, t', b, n) < Budget(cfg, t, b, n)
    requires Budget(cfg, t', At(s, sid, srl).born, n) >= 0
    ensures Cost(cfg, t', sid, srl, n) < Cost(cfg, s, sid, srl, n)
  {
    hide Waits, Owed;
  }

  // ---- There always is a round ---------------------------------------------------------------------

  lemma TraceBefore(cfg: Config, s: State, step: Step, states: seq<State>, steps: seq<Step>)
    requires Trace(cfg, states, steps) && Follows(cfg, s, step, states[0])
    ensures Trace(cfg, [s] + states, [step] + steps)
  {
    hide Follows;
    var states', steps' := [s] + states, [step] + steps;
    forall i | 0 <= i < |steps'| ensures Follows(cfg, states'[i], steps'[i], states'[i + 1]) {
      if i > 0 { assert steps'[i] == steps[i - 1] && states'[i] == states[i - 1] && states'[i + 1] == states[i]; }
    }
  }

  lemma TraceAfter(cfg: Config, states: seq<State>, steps: seq<Step>, step: Step, s': State)
    requires Trace(cfg, states, steps) && Follows(cfg, states[|steps|], step, s')
    ensures Trace(cfg, states + [s'], steps + [step])
  {
    hide Follows;
    var states', steps' := states + [s'], steps + [step];
    forall i | 0 <= i < |steps'| ensures Follows(cfg, states'[i], steps'[i], states'[i + 1]) {
      if i < |steps| { assert Follows(cfg, states[i], steps[i], states[i + 1]); }
    }
  }

  /** The dispatcher can hear all of the replies. */
  lemma {:induction false} HearAll(cfg: Config, s: State, rs: set<Reply>, o: Oracle) returns (states: seq<State>, steps: seq<Step>)
    requires Inv(cfg, s, NoFocus) && cfg.Valid() && o.Valid() && forall r | r in rs :: r in s.pending
    ensures Trace(cfg, states, steps) && states[0] == s && Inv(cfg, states[|steps|], NoFocus)
    ensures forall i | 0 <= i < |steps| :: steps[i].event.Deliver?
    ensures forall r | r in rs :: Hears(steps, r)
    decreases |rs|
  {
    hide Inv, Follows, Lessens, Over;
    if r :| r in rs {
      var step, s1 := Hear(cfg, s, r, o);
      Delivered(cfg, s, step, s1);
      assert forall x | x in rs - {r} :: (s.pending - multiset{r})[x] == s.pending[x];
      var states1, steps1 := HearAll(cfg, s1, rs - {r}, o);
      states, steps := [s] + states1, [step] + steps1;
      TraceBefore(cfg, s, step, states1, steps1);
      forall x | x in rs ensures Hears(steps, x) {
        if x == r {
          assert IsHearing(steps[0], x);
        } else {
          assert x in rs - {r} && Hears(steps1, x);
          var i :| 0 <= i < |steps1| && IsHearing(steps1[i], x);
          assert IsHearing(steps[i + 1], x);
        }
      }
    } else {
      states, steps := [s], [];
    }
  }

  lemma LateChecks(cfg: Config, s: State, step: Step)
    requires IsLate(cfg, s, step)
    ensures step.event.Check?
  {}

  /** From every state there is a round, in which the dispatcher is on its own. */
  lemma SomeRound(cfg: Config, s: State, sid: Sid, o: Oracle) returns (states: seq<State>, steps: seq<Step>)
    requires Inv(cfg, s, NoFocus) && cfg.Valid() && o.Valid()
    ensures Round(cfg, states, steps, sid) && states[0] == s && Inv(cfg, states[|steps|], NoFocus)
  {
    hide Inv, Follows, Passed, IsLate;
    var rs := set r | r in s.pending;
    var states1, steps1 := HearAll(cfg, s, rs, o);
    var step, s' := Pass(cfg, states1[|steps1|], o);
    states, steps := states1 + [s'], steps1 + [step];
    TraceAfter(cfg, states1, steps1, step, s');
    assert IsLate(cfg, states[|steps1|], steps[|steps1|]);
    assert step.event.Check? by { LateChecks(cfg, states1[|steps1|], step); }
    forall i | 0 <= i < |steps| ensures Quiet(steps[i], sid) { assert i < |steps1| ==> steps[i] == steps1[i]; }
    forall r | r in s.pending && r.sid == sid ensures Hears(steps, r) {
      assert r in rs && Hears(steps1, r);
      var i :| 0 <= i < |steps1| && IsHearing(steps1[i], r);
      assert IsHearing(steps[i], r);
    }
  }

  // ---- The end is inevitable -----------------------------------------------------------------------

  /** Rounds that follow one another. */
  ghost predicate Rounds(cfg: Config, rounds: seq<(seq<State>, seq<Step>)>, sid: Sid) {
    && (forall k | 0 <= k < |rounds| :: Round(cfg, rounds[k].0, rounds[k].1, sid))
    && (forall k | 0 < k < |rounds| :: rounds[k].0[0] == rounds[k - 1].0[|rounds[k - 1].1|])
  }

  lemma {:induction false} RoundsDrop(cfg: Config, rounds: seq<(seq<State>, seq<Step>)>, sid: Sid, k: nat)
    requires cfg.Valid() && Rounds(cfg, rounds, sid) && k < |rounds| && Inv(cfg, rounds[0].0[0], NoFocus)
    ensures |rounds[k].0| == |rounds[k].1| + 1
    ensures var s, s' := rounds[0].0[0], rounds[k].0[|rounds[k].1|];
            && Inv(cfg, s', NoFocus)
            && (sid in s'.entries ==> sid in s.entries && Potential(cfg, s', sid) + k + 1 <= Potential(cfg, s, sid))
    decreases k
  {
    hide Inv, Potential, Declines, Quiet, IsLate;
    var (states, steps) := rounds[k];
    assert Round(cfg, states, steps, sid);
    if k > 0 { RoundsDrop(cfg, rounds, sid, k - 1); }
    TraceDeclines(cfg, states, steps, sid, 0, |steps|);
    PotentialFalls(cfg, states[0], states[|steps|], sid);
    if sid in states[|steps|].entries { RoundDrops(cfg, states, steps, sid); }
  }

  /** However the services behave, whatever their skip rules and heartbeats are at each step, and
      whatever messages come in between: once no further file of a submission arrives, it is gone
      after so many rounds, bounded by its files, the services and the retries, and stays gone. */
  lemma Inevitable(cfg: Config, rounds: seq<(seq<State>, seq<Step>)>, sid: Sid)
    requires cfg.Valid() && Rounds(cfg, rounds, sid) && rounds != [] && Reachable(cfg, rounds[0].0[0])
    requires var s := rounds[0].0[0];
             sid in s.entries ==> |rounds| >= Bound(cfg, |s.entries[sid]|)
    ensures var k := |rounds| - 1; |rounds[k].0| == |rounds[k].1| + 1 && sid !in rounds[k].0[|rounds[k].1|].entries
  {
    var s := rounds[0].0[0];
    ReachableInv(cfg, s);
    hide Inv, Reachable, Potential, Rounds, Bound;
    var k := |rounds| - 1;
    RoundsDrop(cfg, rounds, sid, k);
    var s' := rounds[k].0[|rounds[k].1|];
    if sid in s.entries { PotentialBound(cfg, s, sid); }
    if sid in s'.entries { PotentialLeft(cfg, s', sid); }
  }

  lemma PotentialLeft(cfg: Config, s: State, sid: Sid)
    requires Inv(cfg, s, NoFocus) && sid in s.entries
    ensures Potential(cfg, s, sid) > 0
  {
    assert Slot(cfg, s, sid);
    hide Inv;
    var srl :| srl in s.entries[sid];
    Pick(s.entries[sid].Keys, FileCostOf(cfg, s, sid), srl);
    assert FileCostOf(cfg, s, sid)(srl) > 0;
  }
}
