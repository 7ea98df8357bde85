/** What a run of the dispatcher leaves behind is what its messages said. */
module DispatchHistory {
  import opened Prelude
  import opened DispatchModel
  import opened DispatchInvariant
  import opened DispatchSend
  import opened DispatchUpdate
  import opened DispatchEvents
  import opened DispatchSubmit
  import opened DispatchTimeouts
  import opened DispatchSweep
  import opened DispatchProgress
  import opened DispatchRun
  import opened DispatchLaws

  // ---- The parts of an event that touch the books ----------------------------------------------

  /** Replies are only added, each failed one with its error record, and the books are in order. */
  ghost predicate Orderly(s: State, s': State) {
    s.pending <= s'.pending && Tells(s, s') && Books(s, s')
  }

  lemma MovesOrderly(s: State, s': State, now: real)
    requires MovesOn(s, s', now)
    ensures Orderly(s, s')
  {}

  lemma GoesOrderly(s: State, s': State)
    requires Goes(s, s')
    ensures Orderly(s, s')
  {}

  lemma SameOrderly(s: State, s': State)
    requires s'.storage == s.storage && s'.pending == s.pending && s'.log == s.log && s'.asked == s.asked
    ensures Orderly(s, s')
  {
    SameBooks(s, s');
    hide Tells, Books;
  }

  /** The state of `serviced` when the answer has been taken in, from which on everything is orderly. */
  ghost predicate Between(cfg: Config, s: State, s1: State, m: Response) {
    && s1.storage == s.storage && s1.pending == s.pending && s1.asked == s.asked
    && (s1.log == s.log
        || (Counts(cfg, s, m) && m.sid in s.log
            && s1.log == s.log[m.sid := s.log[m.sid] + [Finished(m.srl, m.name, m.status == Ok, m.score, m.key, m.drop)]]))
  }

  lemma ServicedParts(cfg: Config, s: State, m: Response, now: real, o: Oracle) returns (s1: State)
    requires Inv(cfg, s, NoFocus) && cfg.Valid() && o.Valid() && now == s.clock
    ensures Between(cfg, s, s1, m) && Orderly(s1, Serviced(cfg, s, m, now, o))
  {
    hide Inv, Ready, Awaited, Serviced, Dispatch, Responded, Orderly, Between;
    ServicedOtherwise(cfg, s, m, now, o);
    s1 := s;
    SameBetween(cfg, s, s, m);
    if !Awaited(cfg, s, m.sid, m.srl, m.name) {
      SameOrderly(s, s);
    } else if !m.queueOk {
      SameOrderly(s, Serviced(cfg, s, m, now, o));
    } else if m.status.FailRecoverable? {
      s1 := s.(queueSize := Shorter(s.queueSize, m.name));
      SameBetween(cfg, s, s1, m);
      TriedOrderly(cfg, s, s1, m, now, o);
    } else {
      s1 := CountedParts(cfg, s, m, now, o);
    }
  }

  lemma SameBetween(cfg: Config, s: State, s1: State, m: Response)
    requires s1 == s.(queueSize := s1.queueSize)
    ensures Between(cfg, s, s1, m)
  {}

  lemma TriedOrderly(cfg: Config, s0: State, s: State, m: Response, now: real, o: Oracle)
    requires Awaited(cfg, s0, m.sid, m.srl, m.name) && m.sid in s0.completed && s == s0.(queueSize := s.queueSize)
    ensures Has(s, m.sid, m.srl) && m.name in cfg.services && Orderly(s, Dispatch(cfg, s, m.sid, m.srl, m.name, now, o))
  {
    hide MovesOn, Orderly, Dispatch;
    DispatchMoves(cfg, s, m.sid, m.srl, m.name, now, o);
    MovesOrderly(s, Dispatch(cfg, s, m.sid, m.srl, m.name, now, o), now);
  }

  lemma CountedParts(cfg: Config, s: State, m: Response, now: real, o: Oracle) returns (s1: State)
    requires Inv(cfg, s, NoFocus) && cfg.Valid() && o.Valid() && now == s.clock
    requires Awaited(cfg, s, m.sid, m.srl, m.name) && m.queueOk && !m.status.FailRecoverable?
    ensures Between(cfg, s, s1, m) && Orderly(s1, Serviced(cfg, s, m, now, o))
  {
    ServicedIs(cfg, s, m, now, o);
    var d := Dequeued(s, m.name);
    DequeuedSame(s, m.name);
    assert Counts(cfg, d, m);
    assert Counts(cfg, s, m);
    hide Inv, Ready, Awaited, Serviced, Responded, Credit, Update, Orderly, MovesOn, Counts, Dequeued;
    RespondedIs(cfg, d, m, now, o);
    hide Answers;
    CreditSays(cfg, d, m, now);
    s1 := Credit(cfg, d, m, now);
    UpdateMoves(cfg, s1, m.sid, m.srl, now, o);
    MovesOrderly(s1, Update(cfg, s1, m.sid, m.srl, now, o), now);
    hide Listed;
  }

  /** The state of `submitted` when the file has entered, or not. */
  ghost predicate Entering(s: State, s1: State, m: Submission) {
    && s1.storage == s.storage && s1.pending == s.pending
    && (forall sid | sid != m.sid :: SameIn(s.log, s1.log, sid) && SameIn(s.asked, s1.asked, sid))
    && (m.sid in s1.log ==> s1.log[m.sid] == Get(s.log, m.sid, []) || s1.log[m.sid] == [])
    && (m.sid in s1.asked ==> forall f | f in s1.asked[m.sid] ::
          (s1.asked[m.sid][f] == m && f == m.srl) || (m.sid in s.asked && f in s.asked[m.sid] && s1.asked[m.sid][f] == s.asked[m.sid][f]))
  }

  lemma ArrivedParts(cfg: Config, s: State, m: Submission)
    requires Inv(cfg, s, NoFocus) && cfg.Valid()
    ensures m.sid in s.entries ==> m.sid in s.completed
    ensures Entering(s, Arrived(cfg, s, m).0, m)
  {
    InvSlot(cfg, s, NoFocus, m.sid);
    hide Inv, Prior, Enter, Entering;
    if m.psrl.Some? && !m.queueOk {
      SameEntering(s, m);
    } else {
      ArrivedIs(cfg, s, m);
      PriorEntering(s, m);
      if Enters(Prior(s, m), m) {
        EnterFrame(cfg, Prior(s, m), m, DepthOf(m));
        EnterEntering(s, Prior(s, m), Enter(cfg, Prior(s, m), m, DepthOf(m)), m);
      }
    }
  }

  lemma SameEntering(s: State, m: Submission)
    ensures Entering(s, s, m)
  {}

  lemma PriorEntering(s: State, m: Submission)
    ensures Entering(s, Prior(s, m), m)
  {
    PriorStorage(s, m);
    hide Heard, Open;
    if m.psrl.Some? { HeardBooks(s, m.sid, m.psrl.value, m.srl); }
    OpenBooks(s, m.sid);
  }

  lemma HeardBooks(s: State, sid: Sid, psrl: Srl, kid: Srl)
    ensures var r := Heard(s, sid, psrl, kid); r.log == s.log && r.asked == s.asked
  {
    hide Put;
    if Has(s, sid, psrl) { PutSame(s, sid, psrl, At(s, sid, psrl).(extracted := At(s, sid, psrl).extracted - {kid})); }
  }

  lemma OpenBooks(s: State, sid: Sid)
    ensures var r := Open(s, sid); r.log == s.log[sid := []] && r.asked == s.asked[sid := map[]]
  {}

  lemma EnterEntering(s: State, s1: State, s2: State, m: Submission)
    requires Entering(s, s1, m) && s2.storage == s1.storage && s2.pending == s1.pending && s2.log == s1.log
    requires s2.asked == s1.asked[m.sid := Get(s1.asked, m.sid, map[])[m.srl := m]]
    ensures Entering(s, s2, m)
  {
    forall sid | sid != m.sid ensures SameIn(s.log, s2.log, sid) && SameIn(s.asked, s2.asked, sid) {
      assert SameIn(s.log, s1.log, sid) && SameIn(s.asked, s1.asked, sid);
    }
  }

  lemma SubmittedParts(cfg: Config, s: State, m: Submission, now: real, o: Oracle) returns (s1: State)
    requires Inv(cfg, s, NoFocus) && cfg.Valid() && o.Valid() && now == s.clock
    ensures Entering(s, s1, m) && Orderly(s1, Submitted(cfg, s, m, now, o))
  {
    hide Inv, Arrived, Entering, Orderly, MovesOn, Update;
    ArrivedParts(cfg, s, m);
    ArrivedKeeps(cfg, s, m);
    var (a, entered) := Arrived(cfg, s, m);
    s1 := a;
    if entered {
      InvReady(cfg, s1, Focus(m.sid, m.srl, {}), m.sid);
      UpdateMoves(cfg, s1, m.sid, m.srl, now, o);
      MovesOrderly(s1, Update(cfg, s1, m.sid, m.srl, now, o), now);
    } else {
      SameOrderly(s1, s1);
    }
  }

  lemma AcknowledgedOrderly(cfg: Config, s: State, sid: Sid, srl: Srl, name: Name, seconds: real, now: real)
    requires Inv(cfg, s, NoFocus) && cfg.Valid() && now == s.clock
    ensures sid in s.entries ==> Ready(cfg, s, sid)
    ensures Orderly(s, Acknowledged(cfg, s, sid, srl, name, seconds, now))
  {
    hide Inv, Ready, Orderly, Arm;
    InvReadyIf(cfg, s, sid);
    AcknowledgedBooks(cfg, s, sid, srl, name, seconds, now);
    SameOrderly(s, Acknowledged(cfg, s, sid, srl, name, seconds, now));
  }

  lemma AcknowledgedBooks(cfg: Config, s: State, sid: Sid, srl: Srl, name: Name, seconds: real, now: real)
    requires (sid in s.entries ==> Ready(cfg, s, sid)) && cfg.Valid()
    ensures var r := Acknowledged(cfg, s, sid, srl, name, seconds, now);
            r.storage == s.storage && r.pending == s.pending && r.log == s.log && r.asked == s.asked
  {
    if Has(s, sid, srl) { assert Shaped(cfg, s.entries[sid][srl]); }
    hide Linked, Arm;
  }

  lemma CheckOrderly(cfg: Config, s: State, now: real, o: Oracle)
    requires Inv(cfg, s, NoFocus) && cfg.Valid() && o.Valid() && now == s.clock
    ensures Orderly(s, CheckTimeouts(cfg, s, now, o))
  {
    hide Inv, Goes, Orderly, Sweep, SweepChildren;
    if now - s.lastCheck >= cfg.updateInterval {
      PassGoes(cfg, s, now, o);
      GoesOrderly(s, CheckTimeouts(cfg, s, now, o));
    } else {
      SameOrderly(s, s);
    }
  }

  // ---- Error records and failed replies --------------------------------------------------------

  predicate Hearing(step: Step, r: Reply) {
    step.event.Deliver? && step.event.own == r
  }

  /** How often the run has heard this reply of the dispatcher's own. */
  function TimesHeard(steps: seq<Step>, r: Reply): nat {
    if steps == [] then 0 else (if Hearing(steps[0], r) then 1 else 0) + TimesHeard(steps[1..], r)
  }

  lemma SameTells(s: State, s1: State)
    requires s1.storage == s.storage && s1.pending == s.pending
    ensures Tells(s, s1)
  {
    hide Notices;
  }

  /** The part of a step before its reply, if it is one, is taken off. */
  lemma StepParts(cfg: Config, s: State, step: Step, s': State) returns (s1: State, s2: State)
    requires Follows(cfg, s, step, s')
    ensures s.pending <= s1.pending <= s2.pending && Tells(s, s1) && Tells(s1, s2)
    ensures s2 == if step.event.Deliver? then s'.(pending := s2.pending) else s'
    ensures step.event.Deliver? ==> s'.pending == s2.pending - multiset{step.event.own}
  {
    hide Inv, DispatchSubmit.Submitted, DispatchEvents.Serviced, DispatchModel.Acknowledged, DispatchSweep.CheckTimeouts, Tells, Books, Ready;
    TimePasses(cfg, s, step.now);
    var t := WithClock(s, step.now);
    s2 := s';
    match step.event
    case Submit(m) => s1 := SubmittedParts(cfg, t, m, step.now, step.o); SameTells(s, s1);
    case Ack(sid, srl, name, seconds) => AcknowledgedOrderly(cfg, t, sid, srl, name, seconds, step.now); s1 := t; SameTells(s, s1);
    case Service(r) => s1 := ServicedParts(cfg, t, r, step.now, step.o); SameTells(s, s1);
    case Deliver(own, key, score, drop, extracted) =>
      s1 := ServicedParts(cfg, t, Message(own, key, score, drop, extracted), step.now, step.o);
      SameTells(s, s1);
      s2 := Serviced(cfg, t, Message(own, key, score, drop, extracted), step.now, step.o);
    case Check => CheckOrderly(cfg, t, step.now, step.o); s1 := t; SameTells(s, s1);
  }

  /** Each step pushes exactly as many error records as it causes failed replies; hearing one takes it off. */
  lemma StepTells(cfg: Config, s: State, step: Step, s': State, r: Reply)
    requires Follows(cfg, s, step, s') && r.failed
    ensures Notices(s'.storage)[r] + s.pending[r] == Notices(s.storage)[r] + s'.pending[r] + if Hearing(step, r) then 1 else 0
  {
    hide Follows, Notices;
    var s1, s2 := StepParts(cfg, s, step, s');
    assert Noticed(s, s1, r) && Noticed(s1, s2, r);
    if step.event.Deliver? { assert step.event.own in s.pending by { DeliverOwn(cfg, s, step, s'); } }
  }

  lemma DeliverOwn(cfg: Config, s: State, step: Step, s': State)
    requires Follows(cfg, s, step, s') && step.event.Deliver?
    ensures step.event.own in s.pending
  {}

  lemma {:induction false} RunsTell(cfg: Config, s: State, steps: seq<Step>, s': State, r: Reply)
    requires Runs(cfg, s, steps, s') && r.failed
    ensures Notices(s'.storage)[r] + s.pending[r] == Notices(s.storage)[r] + s'.pending[r] + TimesHeard(steps, r)
    decreases |steps|
  {
    hide Follows, Notices, Hearing;
    if steps != [] {
      var s1 :| Follows(cfg, s, steps[0], s1) && Runs(cfg, s1, steps[1..], s');
      StepTells(cfg, s, steps[0], s1, r);
      RunsTell(cfg, s1, steps[1..], s', r);
    }
  }

  lemma NoticeIs(storage: seq<StorageMsg>, r: Reply)
    requires r in Notices(storage)
    ensures exists m :: m in storage && m.Error? && Reply(m.sid, m.srl, m.name, true) == r
  {
    var m := storage[|storage| - 1];
    if m.Error? && Reply(m.sid, m.srl, m.name, true) == r {
      assert m in storage;
    } else {
      NoticeIs(storage[..|storage| - 1], r);
    }
  }

  /** Over every run the error records for a service and file are as many as its failed replies, pending
      or heard.  So each failed reply still to come has its error record on the storage queue. */
  lemma EveryFailureIsStored(cfg: Config, steps: seq<Step>, s: State, sid: Sid, srl: Srl, name: Name)
    requires cfg.Valid() && Runs(cfg, EMPTY, steps, s)
    ensures var r := Reply(sid, srl, name, true);
            && Notices(s.storage)[r] == s.pending[r] + TimesHeard(steps, r)
            && (r in s.pending ==> exists m :: m in s.storage && m.Error? && m.sid == sid && m.srl == srl && m.name == name)
  {
    var r := Reply(sid, srl, name, true);
    RunsTell(cfg, EMPTY, steps, s, r);
    hide Runs;
    if r in s.pending { NoticeIs(s.storage, r); }
  }

  // ---- Histories consist of messages -----------------------------------------------------------

  /** The file came with this message, in one of these steps. */
  ghost predicate Came(steps: seq<Step>, sid: Sid, srl: Srl, m: Submission) {
    m.sid == sid && m.srl == srl && exists i :: 0 <= i < |steps| && steps[i].event == Submit(m)
  }

  /** The step brings this answer: from a service, or the dispatcher's own. */
  predicate Brings(step: Step, sid: Sid, r: Finished) {
    match step.event
    case Service(m) => m.sid == sid && m.queueOk && r == Finished(m.srl, m.name, m.status == Ok, m.score, m.key, m.drop)
    case Deliver(own, key, score, drop, _) => own.sid == sid && r == Finished(own.srl, own.name, !own.failed, score, key, drop)
    case _ => false
  }

  ghost predicate Brought(steps: seq<Step>, sid: Sid, r: Finished) {
    exists i :: 0 <= i < |steps| && Brings(steps[i], sid, r)
  }

  /** The history consists of messages that came and answers that were brought. */
  ghost predicate Real(steps: seq<Step>, sid: Sid, log: seq<Finished>, asked: map<Srl, Submission>) {
    && (forall i | 0 <= i < |log| :: Brought(steps, sid, log[i]))
    && (forall f | f in asked :: Came(steps, sid, f, asked[f]))
  }

  ghost predicate LogReal(steps: seq<Step>, s: State, sid: Sid) {
    && (sid in s.log ==> forall i | 0 <= i < |s.log[sid]| :: Brought(steps, sid, s.log[sid][i]))
    && (sid in s.asked ==> forall f | f in s.asked[sid] :: Came(steps, sid, f, s.asked[sid][f]))
  }

  ghost predicate AllReal(steps: seq<Step>, s: State) {
    && (forall sid :: LogReal(steps, s, sid))
    && (forall m | m in s.storage && m.Finalize? :: Real(steps, m.sid, m.log, m.asked))
  }

  lemma RealLater(steps: seq<Step>, step: Step, s: State)
    requires AllReal(steps, s)
    ensures AllReal(steps + [step], s)
  {
    var steps' := steps + [step];
    forall sid, r | Brought(steps, sid, r) ensures Brought(steps', sid, r) {
      var i :| 0 <= i < |steps| && Brings(steps[i], sid, r);
      assert Brings(steps'[i], sid, r);
    }
    forall sid, f, m | Came(steps, sid, f, m) ensures Came(steps', sid, f, m) {
      var i :| 0 <= i < |steps| && steps[i].event == Submit(m);
      assert steps'[i].event == Submit(m);
    }
    hide Brought, Came;
    forall sid ensures LogReal(steps', s, sid) { assert LogReal(steps, s, sid); }
    forall m | m in s.storage && m.Finalize? ensures Real(steps', m.sid, m.log, m.asked) { assert Real(steps, m.sid, m.log, m.asked); }
  }

  lemma OrderlyReal(steps: seq<Step>, s: State, s': State)
    requires AllReal(steps, s) && Orderly(s, s')
    ensures AllReal(steps, s')
  {
    hide Brought, Came, Tells, Pushed;
    forall sid ensures LogReal(steps, s', sid) { assert Kept(s, s', sid) && LogReal(steps, s, sid); }
    forall m | m in s'.storage && m.Finalize? ensures Real(steps, m.sid, m.log, m.asked) {
      if m !in s.storage { assert FromBooks(s, m) && LogReal(steps, s, m.sid); }
    }
  }

  lemma EnteringReal(steps: seq<Step>, s: State, s1: State, m: Submission)
    requires AllReal(steps, s) && Entering(s, s1, m) && Came(steps, m.sid, m.srl, m)
    ensures AllReal(steps, s1)
  {
    hide Brought, Came, Real;
    forall sid ensures LogReal(steps, s1, sid) {
      assert LogReal(steps, s, sid);
      if sid != m.sid { assert SameIn(s.log, s1.log, sid) && SameIn(s.asked, s1.asked, sid); }
    }
  }

  lemma BetweenReal(cfg: Config, steps: seq<Step>, s: State, s1: State, m: Response)
    requires AllReal(steps, s) && Between(cfg, s, s1, m)
    requires Counts(cfg, s, m) ==> Brought(steps, m.sid, Finished(m.srl, m.name, m.status == Ok, m.score, m.key, m.drop))
    ensures AllReal(steps, s1)
  {
    hide Brought, Came, Real, Counts;
    forall sid ensures LogReal(steps, s1, sid) { assert LogReal(steps, s, sid); }
  }

  lemma LastBrings(steps: seq<Step>, step: Step, sid: Sid, r: Finished)
    requires Brings(step, sid, r)
    ensures Brought(steps + [step], sid, r)
  {
    assert Brings((steps + [step])[|steps|], sid, r);
  }

  lemma LastCame(steps: seq<Step>, step: Step, m: Submission)
    requires step.event == Submit(m)
    ensures Came(steps + [step], m.sid, m.srl, m)
  {
    assert (steps + [step])[|steps|].event == Submit(m);
  }

  lemma SameReal(steps: seq<Step>, s: State, s1: State)
    requires AllReal(steps, s) && s1.log == s.log && s1.asked == s.asked && s1.storage == s.storage
    ensures AllReal(steps, s1)
  {
    hide Brought, Came, Real;
    forall sid ensures LogReal(steps, s1, sid) { assert LogReal(steps, s, sid); }
  }

  lemma ServicedReal(cfg: Config, steps: seq<Step>, s: State, m: Response, now: real, o: Oracle)
    requires Inv(cfg, s, NoFocus) && cfg.Valid() && o.Valid() && now == s.clock && AllReal(steps, s)
    requires m.queueOk ==> Brought(steps, m.sid, Finished(m.srl, m.name, m.status == Ok, m.score, m.key, m.drop))
    ensures AllReal(steps, Serviced(cfg, s, m, now, o))
  {
    hide Inv, DispatchEvents.Serviced, AllReal, Orderly, Between, Brought;
    var s1 := ServicedParts(cfg, s, m, now, o);
    BetweenReal(cfg, steps, s, s1, m);
    OrderlyReal(steps, s1, Serviced(cfg, s, m, now, o));
  }

  lemma StepReal(cfg: Config, steps: seq<Step>, s: State, step: Step, s': State)
    requires Follows(cfg, s, step, s') && AllReal(steps, s)
    ensures AllReal(steps + [step], s')
  {
    hide Inv, DispatchSubmit.Submitted, DispatchEvents.Serviced, DispatchModel.Acknowledged, DispatchSweep.CheckTimeouts, Ready, AllReal, Orderly, Entering, Came, Brought;
    TimePasses(cfg, s, step.now);
    var t := WithClock(s, step.now);
    var steps', now, o := steps + [step], step.now, step.o;
    RealLater(steps, step, s);
    SameReal(steps', s, t);
    match step.event
    case Submit(m) =>
      var s1 := SubmittedParts(cfg, t, m, now, o);
      LastCame(steps, step, m);
      EnteringReal(steps', t, s1, m);
      OrderlyReal(steps', s1, s');
    case Ack(sid, srl, name, seconds) =>
      AcknowledgedOrderly(cfg, t, sid, srl, name, seconds, now);
      OrderlyReal(steps', t, s');
    case Service(m) =>
      if m.queueOk { LastBrings(steps, step, m.sid, Finished(m.srl, m.name, m.status == Ok, m.score, m.key, m.drop)); }
      ServicedReal(cfg, steps', t, m, now, o);
    case Deliver(own, key, score, drop, extracted) =>
      LastBrings(steps, step, own.sid, Finished(own.srl, own.name, !own.failed, score, key, drop));
      var m := Message(own, key, score, drop, extracted);
      ServicedReal(cfg, steps', t, m, now, o);
      SameReal(steps', Serviced(cfg, t, m, now, o), s');
    case Check =>
      CheckOrderly(cfg, t, now, o);
      OrderlyReal(steps', t, s');
  }

  lemma {:induction false} RunsReal(cfg: Config, before: seq<Step>, s: State, steps: seq<Step>, s': State)
    requires Runs(cfg, s, steps, s') && AllReal(before, s)
    ensures AllReal(before + steps, s')
    decreases |steps|
  {
    hide Follows, AllReal;
    if steps == [] {
      assert before + steps == before;
    } else {
      var s1 :| Follows(cfg, s, steps[0], s1) && Runs(cfg, s1, steps[1..], s');
      StepReal(cfg, before, s, steps[0], s1);
      RunsReal(cfg, before + [steps[0]], s1, steps[1..], s');
      assert (before + [steps[0]]) + steps[1..] == before + steps;
    }
  }

  lemma RunReal(cfg: Config, steps: seq<Step>, s: State)
    requires Runs(cfg, EMPTY, steps, s)
    ensures AllReal(steps, s)
  {
    RunsReal(cfg, [], EMPTY, steps, s);
    assert [] + steps == steps;
  }

  // ---- Files get what they were submitted for --------------------------------------------------

  /** In every final record each file, whether root or extracted, came with a message of the run, has that
      message's classification, and has been completed by exactly the known services that message selects,
      apart from those of stages after one at which a service asked to drop the file; and each completion
      is an answer of the run, with its score, key and outcome. */
  lemma FilesAreServed(cfg: Config, steps: seq<Step>, s: State, m: StorageMsg, f: Srl)
    requires cfg.Valid() && Runs(cfg, EMPTY, steps, s) && m in s.storage && m.Finalize? && f in m.files
    ensures f in m.asked && Came(steps, m.sid, f, m.asked[f])
    ensures m.files[f] == m.asked[f].c12n
    ensures forall n :: Completes(m.log, f, n) <==>
              && n in m.asked[f].select && n in cfg.services
              && !exists i :: 0 <= i < |m.log| && m.log[i].srl == f && m.log[i].drop && m.log[i].name in cfg.services
                              && cfg.services[m.log[i].name].stage < cfg.services[n].stage
    ensures forall i | 0 <= i < |m.log| :: Brought(steps, m.sid, m.log[i])
  {
    RunReal(cfg, steps, s);
    FinalServed(cfg, s, m) by { assert Reachable(cfg, s); }
    hide Runs, Came, Brought, LogReal;
    assert Real(steps, m.sid, m.log, m.asked);
    forall n ensures Completes(m.log, f, n) <==> Logged(m.log, f, n) {}
    forall st: nat ensures DroppedBefore(cfg, m.log, f, st) <==>
      exists i :: 0 <= i < |m.log| && m.log[i].srl == f && m.log[i].drop && m.log[i].name in cfg.services && cfg.services[m.log[i].name].stage < st
    {
      DroppedSays(cfg, m.log, f, st);
    }
    hide Completes, Logged, DroppedBefore;
  }

  /** Some completion in the history is of this service on this file. */
  ghost predicate Completes(log: seq<Finished>, srl: Srl, n: Name) {
    exists i :: 0 <= i < |log| && log[i].srl == srl && log[i].name == n
  }

  lemma DroppedSays(cfg: Config, log: seq<Finished>, srl: Srl, st: nat)
    ensures DroppedBefore(cfg, log, srl, st) <==>
      exists i :: 0 <= i < |log| && log[i].srl == srl && log[i].drop && log[i].name in cfg.services && cfg.services[log[i].name].stage < st
  {
    if i :| 0 <= i < |log| && log[i].srl == srl && log[i].drop && log[i].name in cfg.services && cfg.services[log[i].name].stage < st {
      var d := cfg.services[log[i].name].stage;
      assert AsksDrop(cfg, log[i], srl, d);
      assert SaidDrop(cfg, log, srl, d);
    }
  }

  lemma FinalServed(cfg: Config, s: State, m: StorageMsg)
    requires cfg.Valid() && Reachable(cfg, s) && m in s.storage && m.Finalize?
    ensures forall f | f in m.files :: f in m.asked && m.files[f] == m.asked[f].c12n && Served(cfg, m.log, f, m.asked[f])
  {
    ReachableInv(cfg, s);
    hide Reachable, SubAll, HeldAll, SendsOk, TablesOk, Keys, Total, Finals, Served;
    assert FinalOk(cfg, m);
  }

  /** A held file came with a message of the run, and has that message's classification, parent and
      selection of services; the completions recorded of its submission are answers of the run. */
  lemma HeldAsAsked(cfg: Config, steps: seq<Step>, s: State, sid: Sid, srl: Srl)
    requires cfg.Valid() && Runs(cfg, EMPTY, steps, s) && Has(s, sid, srl)
    ensures sid in s.asked && srl in s.asked[sid] && Came(steps, sid, srl, s.asked[sid][srl])
    ensures var e, m := At(s, sid, srl), s.asked[sid][srl];
            && e.c12n == m.c12n && e.parent == m.psrl && e.depth == (if m.psrl.Some? then m.depth + 1 else 0)
            && (forall n :: n in e.selected <==> n in m.select && n in cfg.services)
    ensures sid in s.log && forall i | 0 <= i < |s.log[sid]| :: Brought(steps, sid, s.log[sid][i])
  {
    RunReal(cfg, steps, s);
    HeldSub(cfg, s, sid) by { assert Reachable(cfg, s); }
    hide Runs, Came, Brought, SaidDrop, Served, LogOk, Linked, Best, Keys;
    assert LogReal(steps, s, sid);
    assert AsAsked(cfg, s.log[sid], srl, s.entries[sid][srl], s.asked[sid][srl]);
  }

  lemma HeldSub(cfg: Config, s: State, sid: Sid)
    requires cfg.Valid() && Reachable(cfg, s) && sid in s.entries
    ensures SubOk(cfg, s, sid)
  {
    ReachableInv(cfg, s);
    hide Reachable;
    assert Slot(cfg, s, sid);
  }
}
