/** From every state the dispatcher can be in, it can finish every submission by itself. */
module DispatchCompletion {
  import opened Prelude
  import opened DispatchModel
  import opened DispatchInvariant
  import opened DispatchUpdate
  import opened DispatchEvents
  import opened DispatchSubmit
  import opened DispatchTimeouts
  import opened DispatchSweep
  import opened DispatchProgress
  import opened DispatchRun
  import opened DispatchTheorems

  // ---- What is left to do ----------------------------------------------------------------------

  /** The services an entry still has to hear of: selected, not dropped, not completed. */
  ghost function Remaining(cfg: Config, e: Entry): set<Name> {
    set n | n in e.selected && n in cfg.services && !Finishes(cfg, e, n)
            && (e.dropAt.None? || cfg.services[n].stage <= e.dropAt.value)
  }

  ghost predicate Fewer(cfg: Config, e: Entry, e': Entry) {
    && e'.born == e.born && e'.stage >= e.stage && e'.outstandingKids <= e.outstandingKids
    && Remaining(cfg, e') <= Remaining(cfg, e)
  }

  /** No file has come, and no file has got more to do. */
  ghost predicate Lessens(cfg: Config, s: State, s': State) {
    && s.sent <= s'.sent && s'.started == s.started
    && forall sid, srl | Has(s', sid, srl) :: Has(s, sid, srl) && Fewer(cfg, At(s, sid, srl), At(s', sid, srl))
  }

  lemma LessensTrans(cfg: Config, s0: State, s1: State, s2: State)
    requires Lessens(cfg, s0, s1) && Lessens(cfg, s1, s2)
    ensures Lessens(cfg, s0, s2)
  {
    hide Remaining;
  }

  lemma GoesLessens(cfg: Config, s: State, s': State)
    requires Goes(s, s')
    ensures Lessens(cfg, s, s')
  {
    forall sid, srl | Has(s', sid, srl) ensures Has(s, sid, srl) && Fewer(cfg, At(s, sid, srl), At(s', sid, srl)) {
      AlikeFewer(cfg, At(s, sid, srl), At(s', sid, srl));
    }
  }

  lemma AlikeFewer(cfg: Config, e: Entry, e': Entry)
    requires Alike(e, e')
    ensures Fewer(cfg, e, e')
  {}

  /** A service waited for remains, at the entry's own stage. */
  lemma WaitsRemains(cfg: Config, e: Entry, n: Name)
    requires cfg.Valid() && EntryOk(cfg, e) && Waits(cfg, e, n)
    ensures n in Remaining(cfg, e) && cfg.services[n].stage == e.stage
  {
    assert StageOk(cfg, e, cfg.services[n].stage);
  }

  /** A service whose stage has begun remains only while it is waited for. */
  lemma RemainsWaits(cfg: Config, e: Entry, n: Name)
    requires cfg.Valid() && EntryOk(cfg, e) && n in Remaining(cfg, e) && cfg.services[n].stage <= e.stage
    ensures Waits(cfg, e, n)
  {
    assert StageOk(cfg, e, cfg.services[n].stage);
    assert n in Chosen(cfg, e.selected, cfg.services[n].stage);
  }

  // ---- A timeout pass, late enough ---------------------------------------------------------------

  lemma {:induction false} UpperBound(ks: set<real>) returns (b: real)
    ensures forall k | k in ks :: k <= b
    decreases |ks|
  {
    if k :| k in ks {
      b := UpperBound(ks - {k});
      if k > b { b := k; }
      assert forall k1 | k1 in ks :: k1 == k || k1 in ks - {k};
    } else {
      b := 0.0;
    }
  }

  lemma TableBound<D(!new)>(t: Table<D>, clock: real) returns (b: real)
    requires Timely(t, clock)
    ensures forall now | now >= b :: AllPast(t, now)
  {
    var top := UpperBound(t.Keys);
    b := clock + top + 1.0;
    forall now | now >= b ensures AllPast(t, now) {
      forall k, i | k in t && 0 <= i < |t[k]| ensures t[k][i].time < now {
        assert t[k][i].time <= clock + k && k <= top;
      }
    }
  }

  lemma LateEnough(cfg: Config, s: State) returns (now: real)
    requires Inv(cfg, s, NoFocus)
    ensures now >= s.clock && Late(cfg, s, now)
  {
    InvTimely(cfg, s, true);
    InvTimely(cfg, s, false);
    hide Inv, Timely, AllPast;
    var b1 := TableBound(s.ackT, s.clock);
    var b2 := TableBound(s.svcT, s.clock);
    var b3 := TableBound(s.childT, s.clock);
    var b := UpperBound({s.clock, s.lastCheck + cfg.updateInterval, b1, b2, b3});
    now := b;
    assert b >= b1 && b >= b2 && b >= b3 && b >= s.clock && b >= s.lastCheck + cfg.updateInterval;
  }

  /** The dispatcher is on its own: it looks at the time, or hears a reply it has caused itself. */
  ghost predicate OwnStep(step: Step, o: Oracle) {
    step.o == o && (step.event.Check? || step.event.Deliver?)
  }

  ghost predicate OwnSteps(steps: seq<Step>, o: Oracle) {
    forall i | 0 <= i < |steps| :: OwnStep(steps[i], o)
  }

  /** What a late pass does about everything that waits. */
  ghost predicate Passed(cfg: Config, s: State, s': State) {
    && Goes(s, s')
    && (forall sid, srl, c :: !Armed(s'.childT, sid, srl, c))
    && (forall ack, sid, srl, n |
          Armed(TableOf(s, ack), sid, srl, n) && Has(s', sid, srl) && Wanted(cfg, At(s', sid, srl), ack, n) ::
          Acted(s, s', sid, srl, At(s', sid, srl).born, n))
  }

  /** A pass that comes late enough for everything armed. */
  ghost predicate IsLate(cfg: Config, s: State, step: Step) {
    step.event.Check? && Late(cfg, s, step.now)
  }

  lemma LatePass(cfg: Config, s: State, step: Step, s': State)
    requires Follows(cfg, s, step, s') && IsLate(cfg, s, step)
    ensures Passed(cfg, s, s')
  {
    hide Inv, CheckTimeouts, Armed, Wanted, Acted, AllPast, Submitted, Acknowledged, DispatchEvents.Serviced;
    var now, o := step.now, step.o;
    TimePasses(cfg, s, now);
    var s1 := WithClock(s, now);
    assert s' == CheckTimeouts(cfg, s1, now, o);
    PassGoes(cfg, s1, now, o);
    ClockGoes(s, s1, s', now);
    forall sid, srl, c ensures !Armed(s'.childT, sid, srl, c) { PassEmpties(cfg, s1, now, o, sid, srl, c); }
    forall ack, sid, srl, n | Armed(TableOf(s, ack), sid, srl, n) && Has(s', sid, srl) && Wanted(cfg, At(s', sid, srl), ack, n)
      ensures Acted(s, s', sid, srl, At(s', sid, srl).born, n)
    {
      PassActs(cfg, s1, ack, now, o, sid, srl, n);
      ActedSince(s, s1, s', sid, srl, At(s', sid, srl).born, n);
    }
  }

  lemma Pass(cfg: Config, s: State, o: Oracle) returns (step: Step, s': State)
    requires Inv(cfg, s, NoFocus) && cfg.Valid() && o.Valid()
    ensures Follows(cfg, s, step, s') && OwnStep(step, o) && IsLate(cfg, s, step) && Inv(cfg, s', NoFocus) && Passed(cfg, s, s')
  {
    hide Inv, CheckTimeouts, AllPast, Passed;
    var now := LateEnough(cfg, s);
    step := Step(Check, now, o);
    s' := Next(cfg, s, step);
    NextKeeps(cfg, s, step);
    LatePass(cfg, s, step, s');
  }

  lemma ClockGoes(s: State, s1: State, s': State, now: real)
    requires s1 == WithClock(s, now) && Goes(s1, s')
    ensures Goes(s, s')
  {
    SameBooks(s, s1);
    TellsTrans(s, s1, s');
    BooksTrans(s, s1, s');
    hide Tells, Books;
  }

  lemma ActedSince(s: State, s1: State, s': State, sid: Sid, srl: Srl, born: nat, n: Name)
    requires s1.sent == s.sent && Acted(s1, s', sid, srl, born, n)
    ensures Acted(s, s', sid, srl, born, n)
  {}

  // ---- A reply of the dispatcher's own -----------------------------------------------------------

  lemma AnsweredFewer(cfg: Config, e: Entry, m: Response, st: nat)
    requires cfg.Valid() && EntryOk(cfg, e) && Shaped(cfg, e) && Waits(cfg, e, m.name) && st == cfg.services[m.name].stage
    ensures Fewer(cfg, e, Answered(cfg, e, m, st))
  {
    assert StageOk(cfg, e, st);
    assert m.name in Chosen(cfg, e.selected, st);
    hide StageOk;
  }

  lemma NotedSame(cfg: Config, s: State, sid: Sid, srl: Srl, kid: Srl, now: real)
    requires Has(s, sid, srl) && sid in s.completed
    ensures var r := Noted(cfg, s, sid, srl, kid, now); r.sent == s.sent && r.pending == s.pending && r.started == s.started
  {
    hide Arm, Put;
    var e := At(s, sid, srl);
    PutSame(s, sid, srl, e.(extracted := e.extracted + {kid}));
  }

  lemma {:induction false} AnnounceSame(cfg: Config, s: State, sid: Sid, srl: Srl, kids: seq<Srl>, now: real)
    requires Has(s, sid, srl) && sid in s.completed
    ensures var r := Announce(cfg, s, sid, srl, kids, now); r.sent == s.sent && r.pending == s.pending && r.started == s.started
    decreases |kids|
  {
    hide Noted;
    if kids != [] {
      NotedSame(cfg, s, sid, srl, kids[0], now);
      AnnounceSame(cfg, Noted(cfg, s, sid, srl, kids[0], now), sid, srl, kids[1..], now);
    }
  }

  lemma DoneLessens(cfg: Config, s: State, s': State)
    requires KeepsDone(s, s') && s.sent <= s'.sent && s'.started == s.started
    ensures Lessens(cfg, s, s')
  {
    forall sid, srl | Has(s', sid, srl) ensures Has(s, sid, srl) && Fewer(cfg, At(s, sid, srl), At(s', sid, srl)) {
      AlikeFewer(cfg, At(s, sid, srl), At(s', sid, srl));
    }
  }

  lemma CreditLessens(cfg: Config, s: State, m: Response, now: real)
    requires Ready(cfg, s, m.sid) && Has(s, m.sid, m.srl) && cfg.Valid()
    requires EntryOk(cfg, At(s, m.sid, m.srl)) && Waits(cfg, At(s, m.sid, m.srl), m.name)
    ensures Lessens(cfg, s, Credit(cfg, s, m, now)) && Credit(cfg, s, m, now).pending == s.pending
  {
    hide Answered, Remaining, AddKey, EntryOk, Waits, Announce, KeepsDone;
    var e := At(s, m.sid, m.srl);
    assert Shaped(cfg, e) && m.name in cfg.services by { WaitsKnown(cfg, e, m.name); }
    AnsweredFewer(cfg, e, m, cfg.services[m.name].stage);
    var s1 := Recorded(cfg, s, m);
    assert Lessens(cfg, s, s1);
    if m.status.Ok? {
      AnnounceSame(cfg, s1, m.sid, m.srl, m.extracted, now);
      AnnounceDone(cfg, s1, m.sid, m.srl, m.extracted, now);
      DoneLessens(cfg, s1, Credit(cfg, s, m, now));
      LessensTrans(cfg, s, s1, Credit(cfg, s, m, now));
    }
  }

  lemma WaitsKnown(cfg: Config, e: Entry, n: Name)
    requires Waits(cfg, e, n)
    ensures n in cfg.services
  {}

  lemma MovesLessens(cfg: Config, s: State, s': State, now: real)
    requires MovesOn(s, s', now)
    ensures Lessens(cfg, s, s')
  {
    hide Fresh, Remaining;
    MovesGoes(s, s', now);
    GoesLessens(cfg, s, s');
  }

  /** Whatever a service answers, no file gets more to do, and no reply is taken back. */
  lemma ServicedLessens(cfg: Config, s: State, m: Response, now: real, o: Oracle)
    requires Inv(cfg, s, NoFocus) && cfg.Valid() && o.Valid() && now == s.clock
    ensures var s' := DispatchEvents.Serviced(cfg, s, m, now, o); Lessens(cfg, s, s') && s.pending <= s'.pending
  {
    hide Inv, Ready, Credit, Update, Lessens, DispatchEvents.Serviced, EntryOk, Responded;
    ServicedIs(cfg, s, m, now, o);
    SameLessens(cfg, s, s);
    if Awaited(cfg, s, m.sid, m.srl, m.name) {
      var s1 := Dequeued(s, m.name);
      SameLessens(cfg, s, s1);
      RespondedLessens(cfg, s1, m, now, o);
      LessensTrans(cfg, s, s1, Responded(cfg, s1, m, now, o));
    }
  }

  lemma RespondedLessens(cfg: Config, s: State, m: Response, now: real, o: Oracle)
    requires Inv(cfg, s, NoFocus) && cfg.Valid() && o.Valid() && now == s.clock
    requires (m.sid in s.entries ==> Ready(cfg, s, m.sid)) && Awaited(cfg, s, m.sid, m.srl, m.name)
    ensures var s' := Responded(cfg, s, m, now, o); Lessens(cfg, s, s') && s.pending <= s'.pending
  {
    hide Inv, Ready, Credit, Update, Lessens, EntryOk, Dispatch, KeepsDone, Fresh;
    SameLessens(cfg, s, s);
    HeldFacts(cfg, s, NoFocus, m.sid, m.srl);
    WaitsKnown(cfg, At(s, m.sid, m.srl), m.name);
    InvSlot(cfg, s, NoFocus, m.sid);
    if m.queueOk {
      if m.status.FailRecoverable? && Resend(cfg, s, false, m.sid, m.srl, m.name) {
        DispatchMoves(cfg, s, m.sid, m.srl, m.name, now, o);
        MovesLessens(cfg, s, Dispatch(cfg, s, m.sid, m.srl, m.name, now, o), now);
      } else {
        var s2 := Credit(cfg, s, m, now);
        CreditLessens(cfg, s, m, now);
        CreditKeeps(cfg, s, m, now);
        InvReady(cfg, s2, Focus(m.sid, m.srl, {}), m.sid);
        UpdateMoves(cfg, s2, m.sid, m.srl, now, o);
        MovesLessens(cfg, s2, Update(cfg, s2, m.sid, m.srl, now, o), now);
        LessensTrans(cfg, s, s2, Update(cfg, s2, m.sid, m.srl, now, o));
      }
    }
  }

  lemma SameLessens(cfg: Config, s: State, s': State)
    requires s'.entries == s.entries && s'.sent == s.sent && s'.started == s.started
    ensures Lessens(cfg, s, s')
  {}

  /** Hearing a reply that is on its way, whatever it says, settles its service. */
  lemma Delivered(cfg: Config, s: State, step: Step, s': State)
    requires Follows(cfg, s, step, s') && step.event.Deliver?
    ensures var r := step.event.own;
            && Lessens(cfg, s, s') && Over(cfg, s', r.sid, r.srl, r.name)
            && s.pending - multiset{r} <= s'.pending
  {
    hide Inv, CheckTimeouts, Submitted, Acknowledged, DispatchEvents.Serviced, Lessens;
    TimePasses(cfg, s, step.now);
    var s1 := WithClock(s, step.now);
    var Deliver(r, key, score, drop, extracted) := step.event;
    var m := Message(r, key, score, drop, extracted);
    var s2 := DispatchEvents.Serviced(cfg, s1, m, step.now, step.o);
    assert s' == s2.(pending := s2.pending - multiset{r});
    ServicedOver(cfg, s1, m, step.now, step.o);
    ServicedLessens(cfg, s1, m, step.now, step.o);
    SameLessens(cfg, s, s1);
    SameLessens(cfg, s2, s');
    LessensTrans(cfg, s, s1, s2);
    LessensTrans(cfg, s, s2, s');
  }

  lemma Hear(cfg: Config, s: State, r: Reply, o: Oracle) returns (step: Step, s': State)
    requires Inv(cfg, s, NoFocus) && cfg.Valid() && o.Valid() && r in s.pending
    ensures Follows(cfg, s, step, s') && OwnStep(step, o) && Inv(cfg, s', NoFocus) && step.event.Deliver? && step.event.own == r
    ensures Lessens(cfg, s, s') && Over(cfg, s', r.sid, r.srl, r.name)
  {
    hide Inv, Next, Lessens, Over;
    step := Step(Deliver(r, None, 0, false, []), s.clock, o);
    s' := Next(cfg, s, step);
    NextKeeps(cfg, s, step);
    Delivered(cfg, s, step, s');
  }

  // ---- Runs of such steps ------------------------------------------------------------------------

  /** A run of own steps, after which nothing has got more to do. */
  ghost predicate Leads(cfg: Config, s: State, steps: seq<Step>, s': State, o: Oracle) {
    Runs(cfg, s, steps, s') && OwnSteps(steps, o) && Inv(cfg, s', NoFocus) && Lessens(cfg, s, s')
  }

  lemma Nowhere(cfg: Config, s: State, o: Oracle)
    requires Inv(cfg, s, NoFocus)
    ensures Leads(cfg, s, [], s, o)
  {
    hide Inv;
    SameLessens(cfg, s, s);
  }

  lemma FirstStep(cfg: Config, s: State, step: Step, s1: State, steps: seq<Step>, s': State, o: Oracle)
    requires Follows(cfg, s, step, s1) && OwnStep(step, o) && Lessens(cfg, s, s1) && Leads(cfg, s1, steps, s', o)
    ensures Leads(cfg, s, [step] + steps, s', o)
  {
    hide Inv, Next, Lessens, Follows;
    LessensTrans(cfg, s, s1, s');
    var all := [step] + steps;
    assert all[0] == step && all[1..] == steps;
    assert Runs(cfg, s, all, s');
    forall i | 0 <= i < |all| ensures OwnStep(all[i], o) {
      if i > 0 { assert all[i] == steps[i - 1]; }
    }
  }

  lemma {:induction false} RunsOn(cfg: Config, s: State, steps1: seq<Step>, s1: State, steps2: seq<Step>, s2: State)
    requires Runs(cfg, s, steps1, s1) && Runs(cfg, s1, steps2, s2)
    ensures Runs(cfg, s, steps1 + steps2, s2)
    decreases |steps1|
  {
    hide Follows;
    var all := steps1 + steps2;
    if steps1 == [] {
      assert all == steps2;
    } else {
      var t :| Follows(cfg, s, steps1[0], t) && Runs(cfg, t, steps1[1..], s1);
      RunsOn(cfg, t, steps1[1..], s1, steps2, s2);
      assert all[0] == steps1[0] && all[1..] == steps1[1..] + steps2;
    }
  }

  lemma LeadsOn(cfg: Config, s: State, steps1: seq<Step>, s1: State, steps2: seq<Step>, s2: State, o: Oracle)
    requires Leads(cfg, s, steps1, s1, o) && Leads(cfg, s1, steps2, s2, o)
    ensures Leads(cfg, s, steps1 + steps2, s2, o)
  {
    hide Inv, Lessens, Runs;
    RunsOn(cfg, s, steps1, s1, steps2, s2);
    LessensTrans(cfg, s, s1, s2);
  }

  // ---- One service, one file, one submission -----------------------------------------------------

  /** The services' requests are bounded, so some reply comes. */
  function Budget(cfg: Config, s: State, born: nat, n: Name): int { cfg.maxRetries + 1 - s.sent[(born, n)] }

  lemma BudgetLeft(cfg: Config, s: State, born: nat, n: Name)
    requires Inv(cfg, s, NoFocus)
    ensures Budget(cfg, s, born, n) >= 0
  {}

  predicate IsAcked(cfg: Config, e: Entry, n: Name) {
    n in cfg.services && cfg.services[n].stage < |e.acked| && n in e.acked[cfg.services[n].stage]
  }

  /** A service waited for has its timeout armed, in the table for its state, or a reply coming. */
  lemma EntryFacts(cfg: Config, s: State, sid: Sid, srl: Srl)
    requires Inv(cfg, s, NoFocus) && Has(s, sid, srl)
    ensures EntryOk(cfg, At(s, sid, srl))
    ensures forall n | Waits(cfg, At(s, sid, srl), n) ::
              Armed(TableOf(s, !IsAcked(cfg, At(s, sid, srl), n)), sid, srl, n) || Owed(s.pending, sid, srl, n)
  {
    HeldFacts(cfg, s, NoFocus, sid, srl);
    hide Inv, Armed, Owed, EntryOk;
    assert Covered(s, sid, srl, At(s, sid, srl), {});
  }

  lemma OverSettles(cfg: Config, s: State, s': State, sid: Sid, srl: Srl, n: Name)
    requires Inv(cfg, s', NoFocus) && cfg.Valid() && Lessens(cfg, s, s') && Over(cfg, s', sid, srl, n)
    requires Has(s, sid, srl) && n in cfg.services && cfg.services[n].stage <= At(s, sid, srl).stage && Has(s', sid, srl)
    ensures n !in Remaining(cfg, At(s', sid, srl))
  {
    EntryFacts(cfg, s', sid, srl);
    hide Inv, Remaining;
    if n in Remaining(cfg, At(s', sid, srl)) {
      RemainsWaits(cfg, At(s', sid, srl), n);
    }
  }

  /** A reply for the service is on its way: hear it. */
  lemma HearOf(cfg: Config, s: State, sid: Sid, srl: Srl, n: Name, o: Oracle) returns (steps: seq<Step>, s': State)
    requires Inv(cfg, s, NoFocus) && cfg.Valid() && o.Valid() && Has(s, sid, srl) && Waits(cfg, At(s, sid, srl), n)
    requires Owed(s.pending, sid, srl, n)
    ensures Leads(cfg, s, steps, s', o)
    ensures Has(s', sid, srl) ==> n !in Remaining(cfg, At(s', sid, srl))
  {
    EntryFacts(cfg, s, sid, srl);
    WaitsRemains(cfg, At(s, sid, srl), n);
    hide Inv, Follows, Over, Lessens, Remaining, EntryOk;
    var r := if Reply(sid, srl, n, true) in s.pending then Reply(sid, srl, n, true) else Reply(sid, srl, n, false);
    var step;
    step, s' := Hear(cfg, s, r, o);
    if Has(s', sid, srl) { OverSettles(cfg, s, s', sid, srl, n); }
    Nowhere(cfg, s', o);
    FirstStep(cfg, s, step, s', [], s', o);
    steps := [step] + [];
  }

  /** After a late pass the service is settled, a reply is on its way, or it was sent once more. */
  lemma PassOf(cfg: Config, s: State, s': State, sid: Sid, srl: Srl, n: Name)
    requires Inv(cfg, s, NoFocus) && Inv(cfg, s', NoFocus) && cfg.Valid() && Passed(cfg, s, s')
    requires Has(s, sid, srl) && Waits(cfg, At(s, sid, srl), n) && Has(s', sid, srl)
    ensures At(s', sid, srl).born == At(s, sid, srl).born && Waits(cfg, At(s', sid, srl), n)
    ensures Owed(s'.pending, sid, srl, n) || Budget(cfg, s', At(s, sid, srl).born, n) < Budget(cfg, s, At(s, sid, srl).born, n)
  {
    var e, e' := At(s, sid, srl), At(s', sid, srl);
    EntryFacts(cfg, s, sid, srl);
    EntryFacts(cfg, s', sid, srl);
    WaitsRemains(cfg, e, n);
    assert Alike(e, e');
    AlikeFewer(cfg, e, e');
    AlikeRemains(cfg, e, e');
    RemainsWaits(cfg, e', n);
    WaitsWanted(cfg, e', n);
    hide Inv, Remaining, Armed, EntryOk, Wanted, Goes;
    assert IsAcked(cfg, e', n) == IsAcked(cfg, e, n);
    if Owed(s.pending, sid, srl, n) {
      assert Owed(s'.pending, sid, srl, n) by { GoesOwed(s, s', sid, srl, n); }
    } else {
      assert Acted(s, s', sid, srl, e'.born, n);
    }
  }

  lemma GoesOwed(s: State, s': State, sid: Sid, srl: Srl, n: Name)
    requires Goes(s, s') && Owed(s.pending, sid, srl, n)
    ensures Owed(s'.pending, sid, srl, n)
  {}

  lemma AlikeRemains(cfg: Config, e: Entry, e': Entry)
    requires Alike(e, e')
    ensures Remaining(cfg, e') == Remaining(cfg, e)
  {}

  lemma WaitsWanted(cfg: Config, e: Entry, n: Name)
    requires cfg.Valid() && EntryOk(cfg, e) && Waits(cfg, e, n)
    ensures Wanted(cfg, e, !IsAcked(cfg, e, n), n)
  {
    assert StageOk(cfg, e, cfg.services[n].stage);
  }

  /** A service being waited for can be settled. */
  lemma {:induction false} Settle(cfg: Config, s: State, sid: Sid, srl: Srl, n: Name, o: Oracle) returns (steps: seq<Step>, s': State)
    requires Inv(cfg, s, NoFocus) && cfg.Valid() && o.Valid() && Has(s, sid, srl) && Waits(cfg, At(s, sid, srl), n)
    ensures Leads(cfg, s, steps, s', o)
    ensures Has(s', sid, srl) ==> n !in Remaining(cfg, At(s', sid, srl))
    decreases Budget(cfg, s, At(s, sid, srl).born, n)
  {
    hide Inv, Follows, Lessens, Remaining, Owed, Passed, Leads, Waits;
    BudgetLeft(cfg, s, At(s, sid, srl).born, n);
    if Owed(s.pending, sid, srl, n) {
      steps, s' := HearOf(cfg, s, sid, srl, n, o);
    } else {
      var step, s1 := Pass(cfg, s, o);
      PassedLessens(cfg, s, s1);
      var more: seq<Step> := [];
      if !Has(s1, sid, srl) {
        s' := s1;
        Nowhere(cfg, s1, o);
      } else {
        PassOf(cfg, s, s1, sid, srl, n);
        if Owed(s1.pending, sid, srl, n) {
          more, s' := HearOf(cfg, s1, sid, srl, n, o);
        } else {
          more, s' := Settle(cfg, s1, sid, srl, n, o);
        }
      }
      FirstStep(cfg, s, step, s1, more, s', o);
      steps := [step] + more;
    }
  }

  lemma PassedLessens(cfg: Config, s: State, s': State)
    requires Passed(cfg, s, s')
    ensures Lessens(cfg, s, s')
  {
    hide Armed, Wanted, Acted, Goes;
    GoesLessens(cfg, s, s');
  }

  /** A childless entry waits for a service or, once Done, for an announced child. */
  lemma ChildlessWaits(cfg: Config, s: State, sid: Sid, srl: Srl) returns (n: Name)
    requires Inv(cfg, s, NoFocus) && cfg.Valid() && Has(s, sid, srl) && At(s, sid, srl).outstandingKids == {}
    ensures At(s, sid, srl).stage <= cfg.Done()
    ensures if At(s, sid, srl).stage < cfg.Done() then Waits(cfg, At(s, sid, srl), n) else exists c :: Armed(s.childT, sid, srl, c)
  {
    HeldFacts(cfg, s, NoFocus, sid, srl);
    hide Inv, Armed;
    var e := At(s, sid, srl);
    n := Name("");
    if e.stage < cfg.Done() {
      var w :| w in e.dispatched[e.stage] + e.acked[e.stage];
      assert StageOk(cfg, e, e.stage);
      assert w in Chosen(cfg, e.selected, e.stage);
      n := w;
    }
  }

  lemma LessensAt(cfg: Config, s: State, s': State, sid: Sid, srl: Srl)
    requires Lessens(cfg, s, s') && Has(s', sid, srl)
    ensures Has(s, sid, srl) && Fewer(cfg, At(s, sid, srl), At(s', sid, srl))
  {}

  /** A file without outstanding children can be finished. */
  lemma {:induction false} FinishFile(cfg: Config, s: State, sid: Sid, srl: Srl, o: Oracle) returns (steps: seq<Step>, s': State)
    requires Inv(cfg, s, NoFocus) && cfg.Valid() && o.Valid() && Has(s, sid, srl) && At(s, sid, srl).outstandingKids == {}
    ensures Leads(cfg, s, steps, s', o) && !Has(s', sid, srl)
    decreases |Remaining(cfg, At(s, sid, srl))|
  {
    hide Inv, Follows, Remaining, Passed, Waits, Armed, Runs, Lessens;
    var n := ChildlessWaits(cfg, s, sid, srl);
    if At(s, sid, srl).stage < cfg.Done() {
      EntryFacts(cfg, s, sid, srl);
      WaitsRemains(cfg, At(s, sid, srl), n);
      steps, s' := Settle(cfg, s, sid, srl, n, o);
      if Has(s', sid, srl) {
        var s1 := s';
        LessensAt(cfg, s, s1, sid, srl);
        SmallerSet(Remaining(cfg, At(s1, sid, srl)), Remaining(cfg, At(s, sid, srl)));
        var more;
        more, s' := FinishFile(cfg, s1, sid, srl, o);
        LeadsOn(cfg, s, steps, s1, more, s', o);
        steps := steps + more;
      }
    } else {
      var step;
      step, s' := Pass(cfg, s, o);
      PassedLessens(cfg, s, s');
      PassedDone(cfg, s, s', sid, srl);
      Nowhere(cfg, s', o);
      FirstStep(cfg, s, step, s', [], s', o);
      steps := [step] + [];
    }
  }

  /** A late pass finishes a file that only waits for announced children. */
  lemma PassedDone(cfg: Config, s: State, s': State, sid: Sid, srl: Srl)
    requires Inv(cfg, s', NoFocus) && cfg.Valid() && Passed(cfg, s, s') && Lessens(cfg, s, s')
    requires Has(s, sid, srl) && At(s, sid, srl).outstandingKids == {} && At(s, sid, srl).stage >= cfg.Done()
    ensures !Has(s', sid, srl)
  {
    hide Inv, Armed, Goes, Lessens, Wanted, Acted;
    if Has(s', sid, srl) {
      LessensAt(cfg, s, s', sid, srl);
      var n := ChildlessWaits(cfg, s', sid, srl);
    }
  }

  lemma SmallerSet<T>(a: set<T>, b: set<T>)
    requires a < b
    ensures |a| < |b|
  {
    assert b == a + (b - a);
  }

  lemma FewerFiles(cfg: Config, s: State, s': State, sid: Sid, srl: Srl)
    requires Lessens(cfg, s, s') && sid in s.entries && sid in s'.entries && Has(s, sid, srl) && !Has(s', sid, srl)
    ensures |s'.entries[sid]| < |s.entries[sid]|
  {
    var files, files' := s.entries[sid], s'.entries[sid];
    forall c | c in files' ensures c in files && c != srl { assert Has(s', sid, c); }
    assert files'.Keys < files.Keys;
    SmallerSet(files'.Keys, files.Keys);
    assert |files'.Keys| == |files'| && |files.Keys| == |files|;
  }

  lemma {:induction false} FinishFiles(cfg: Config, s: State, sid: Sid, o: Oracle) returns (steps: seq<Step>, s': State)
    requires Inv(cfg, s, NoFocus) && cfg.Valid() && o.Valid() && sid in s.entries
    ensures Leads(cfg, s, steps, s', o) && sid !in s'.entries
    decreases |s.entries[sid]|
  {
    assert Slot(cfg, s, sid);
    var y := Youngest(s.entries[sid]);
    YoungestChildless(s.entries[sid], y);
    hide Inv, Runs, Lessens;
    steps, s' := FinishFile(cfg, s, sid, y, o);
    if sid in s'.entries {
      var s1 := s';
      FewerFiles(cfg, s, s1, sid, y);
      var more;
      more, s' := FinishFiles(cfg, s1, sid, o);
      LeadsOn(cfg, s, steps, s1, more, s', o);
      steps := steps + more;
    }
  }

  /** Whatever has happened, and whatever the services' skip rules and heartbeats are from now on,
      the dispatcher can finish the submission by itself: there is a run of timeout passes and of
      its own replies, without a word from any service or client, that ends with the submission
      gone, and with exactly one more final record for it. */
  lemma AlwaysFinishes(cfg: Config, s: State, sid: Sid, o: Oracle) returns (steps: seq<Step>, s': State)
    requires cfg.Valid() && Reachable(cfg, s) && sid in s.entries && o.Valid()
    ensures Runs(cfg, s, steps, s') && OwnSteps(steps, o)
    ensures sid !in s'.entries && Finals(s'.storage)[sid] == Finals(s.storage)[sid] + 1
  {
    ReachableInv(cfg, s);
    steps, s' := FinishFiles(cfg, s, sid, o);
    hide Runs, Reachable;
    assert Tally(s, sid) && Tally(s', sid);
  }
}
