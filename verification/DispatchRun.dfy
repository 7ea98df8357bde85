/** Runs of the dispatcher, and what holds in every state they reach. */
module DispatchRun {
  import opened Prelude
  import opened DispatchModel
  import opened DispatchInvariant
  import opened DispatchSend
  import opened DispatchUpdate
  import opened DispatchEvents
  import opened DispatchSubmit
  import opened DispatchTimeouts
  import opened DispatchSweep

  /** What can happen next.  Submit, Ack and Service are arbitrary messages: duplicated, late,
      out of order, or meant for nobody.  Deliver is one of the dispatcher's own replies arriving. */
  datatype Event =
    | Submit(m: Submission)
    | Ack(sid: Sid, srl: Srl, name: Name, seconds: real)
    | Service(r: Response)
    | Deliver(own: Reply, key: Option<Key>, score: int, drop: bool, extracted: seq<Srl>)
    | Check

  datatype Step = Step(event: Event, now: real, o: Oracle)

  ghost predicate Legal(s: State, step: Step) {
    && s.clock <= step.now && step.o.Valid()
    && (step.event.Deliver? ==> step.event.own in s.pending)
  }

  // ---- Time passes ---------------------------------------------------------------------------

  function WithClock(s: State, now: real): State {
    s.(clock := now)
  }

  lemma LaterTimely<D(!new)>(t: Table<D>, clock: real, now: real)
    requires Timely(t, clock) && clock <= now
    ensures Timely(t, now)
  {}

  lemma TimePasses(cfg: Config, s: State, now: real)
    requires Inv(cfg, s, NoFocus) && s.clock <= now
    ensures Inv(cfg, WithClock(s, now), NoFocus)
  {
    var s' := WithClock(s, now);
    LaterTimely(s.ackT, s.clock, now);
    LaterTimely(s.svcT, s.clock, now);
    LaterTimely(s.childT, s.clock, now);
    SameBalance(cfg, s, s');
    hide SubOk, HeldOk, SendsOk, Timely, Known, Balanced;
    FewerSends(cfg, s, s');
    forall sid ensures Slot(cfg, s', sid) { assert Slot(cfg, s, sid); SlotElsewhere(cfg, s, s', sid); }
    hide Slot;
    forall sid, srl | Has(s', sid, srl) ensures HeldOk(cfg, s', sid, srl, At(s', sid, srl), NoFocus) {
      SameTables(cfg, s, s', sid, srl, At(s, sid, srl), NoFocus);
    }
  }

  // ---- A reply of the dispatcher's own arrives -----------------------------------------------

  lemma KeepsDoneTrans(s0: State, s1: State, s2: State)
    requires KeepsDone(s0, s1) && KeepsDone(s1, s2)
    ensures KeepsDone(s0, s2)
  {}

  lemma NotedDone(cfg: Config, s: State, sid: Sid, srl: Srl, kid: Srl, now: real)
    requires Has(s, sid, srl) && sid in s.completed
    ensures KeepsDone(s, Noted(cfg, s, sid, srl, kid, now))
  {
    hide Arm;
  }

  lemma {:induction false} AnnounceDone(cfg: Config, s: State, sid: Sid, srl: Srl, kids: seq<Srl>, now: real)
    requires Has(s, sid, srl) && sid in s.completed
    ensures KeepsDone(s, Announce(cfg, s, sid, srl, kids, now))
    ensures Has(Announce(cfg, s, sid, srl, kids, now), sid, srl)
    decreases |kids|
  {
    if kids != [] {
      var s1 := Noted(cfg, s, sid, srl, kids[0], now);
      NotedDone(cfg, s, sid, srl, kids[0], now);
      hide KeepsDone, Noted;
      AnnounceDone(cfg, s1, sid, srl, kids[1..], now);
      KeepsDoneTrans(s, s1, Announce(cfg, s, sid, srl, kids, now));
    }
  }

  /** The service no longer waits anywhere on this file. */
  ghost predicate Over(cfg: Config, s: State, sid: Sid, srl: Srl, n: Name) {
    Has(s, sid, srl) ==>
      var e := At(s, sid, srl);
      forall st | 0 <= st < |e.dispatched| && st < |e.acked| :: n !in e.dispatched[st] && n !in e.acked[st]
  }

  lemma FinishedOver(cfg: Config, s: State, sid: Sid, srl: Srl, n: Name)
    requires Inv(cfg, s, NoFocus) && cfg.Valid()
    requires Has(s, sid, srl) ==> Finishes(cfg, At(s, sid, srl), n)
    ensures Over(cfg, s, sid, srl, n)
  {
    if Has(s, sid, srl) {
      HeldFacts(cfg, s, NoFocus, sid, srl);
      var e := At(s, sid, srl);
      forall st | 0 <= st < |e.dispatched| && st < |e.acked| ensures n !in e.dispatched[st] && n !in e.acked[st] {
        if n in e.dispatched[st] || n in e.acked[st] { WaitingStage(cfg, e, n, st); assert false; }
      }
    }
  }

  lemma NotAwaitedOver(cfg: Config, s: State, sid: Sid, srl: Srl, n: Name)
    requires Inv(cfg, s, NoFocus) && cfg.Valid() && (sid in s.entries ==> Ready(cfg, s, sid))
    requires !Awaited(cfg, s, sid, srl, n)
    ensures Over(cfg, s, sid, srl, n)
  {
    if Has(s, sid, srl) {
      HeldFacts(cfg, s, NoFocus, sid, srl);
      var e := At(s, sid, srl);
      forall st | 0 <= st < |e.dispatched| && st < |e.acked| ensures n !in e.dispatched[st] && n !in e.acked[st] {
        if n in e.dispatched[st] || n in e.acked[st] { WaitingStage(cfg, e, n, st); assert false; }
      }
    }
  }

  /** An answer that is neither misdirected nor a recoverable failure settles its service. */
  lemma ServicedOver(cfg: Config, s: State, m: Response, now: real, o: Oracle)
    requires Inv(cfg, s, NoFocus) && cfg.Valid() && o.Valid() && now == s.clock
    requires m.queueOk && !m.status.FailRecoverable?
    ensures Over(cfg, Serviced(cfg, s, m, now, o), m.sid, m.srl, m.name)
  {
    hide Inv, Ready, Over, Responded, Dequeued, Awaited, Serviced;
    ServicedIs(cfg, s, m, now, o);
    if Awaited(cfg, s, m.sid, m.srl, m.name) {
      RespondedOver(cfg, Dequeued(s, m.name), m, now, o);
    } else {
      NotAwaitedOver(cfg, s, m.sid, m.srl, m.name);
    }
  }

  lemma RespondedOver(cfg: Config, s: State, m: Response, now: real, o: Oracle)
    requires Inv(cfg, s, NoFocus) && cfg.Valid() && o.Valid() && now == s.clock
    requires (m.sid in s.entries ==> Ready(cfg, s, m.sid)) && Awaited(cfg, s, m.sid, m.srl, m.name)
    requires m.queueOk && !m.status.FailRecoverable?
    ensures Over(cfg, Responded(cfg, s, m, now, o), m.sid, m.srl, m.name)
  {
    hide Inv, Covered, Linked, Shaped, Over, Credit, EntryOk, Update;
    HeldFacts(cfg, s, NoFocus, m.sid, m.srl);
    CreditKeeps(cfg, s, m, now);
    CreditFinishes(cfg, s, m, now);
    var s2 := Credit(cfg, s, m, now);
    InvReady(cfg, s2, Focus(m.sid, m.srl, {}), m.sid);
    UpdateMoves(cfg, s2, m.sid, m.srl, now, o);
    RespondedKeeps(cfg, s, m, now, o);
    FinishedOver(cfg, Responded(cfg, s, m, now, o), m.sid, m.srl, m.name);
  }

  lemma CreditFinishes(cfg: Config, s: State, m: Response, now: real)
    requires cfg.Valid() && Has(s, m.sid, m.srl) && Ready(cfg, s, m.sid) && m.name in cfg.services
    ensures var s' := Credit(cfg, s, m, now);
            Has(s', m.sid, m.srl) && Finishes(cfg, At(s', m.sid, m.srl), m.name)
  {
    var s1 := Recorded(cfg, s, m);
    assert Finishes(cfg, At(s1, m.sid, m.srl), m.name);
    if m.status.Ok? { AnnounceDone(cfg, s1, m.sid, m.srl, m.extracted, now); }
  }

  lemma RepliedKeeps(cfg: Config, s: State, r: Reply)
    requires Inv(cfg, s, NoFocus) && Over(cfg, s, r.sid, r.srl, r.name)
    ensures Inv(cfg, s.(pending := s.pending - multiset{r}), NoFocus)
  {
    var s' := s.(pending := s.pending - multiset{r});
    SameBalance(cfg, s, s');
    hide SubOk, SendsOk, Timely, Known, Balanced;
    FewerSends(cfg, s, s');
    forall sid ensures Slot(cfg, s', sid) { assert Slot(cfg, s, sid); SlotElsewhere(cfg, s, s', sid); }
    hide Slot, HeldOk, Over;
    forall sid, srl | Has(s', sid, srl) ensures HeldOk(cfg, s', sid, srl, At(s', sid, srl), NoFocus) {
      RepliedHeld(cfg, s, r, sid, srl);
    }
  }

  lemma RepliedHeld(cfg: Config, s: State, r: Reply, sid: Sid, srl: Srl)
    requires Has(s, sid, srl) && HeldOk(cfg, s, sid, srl, At(s, sid, srl), NoFocus) && Over(cfg, s, r.sid, r.srl, r.name)
    ensures HeldOk(cfg, s.(pending := s.pending - multiset{r}), sid, srl, At(s, sid, srl), NoFocus)
  {
    hide Armed, StageOk;
  }

  /** The message a reply of the dispatcher's own turns into. */
  function Message(r: Reply, key: Option<Key>, score: int, drop: bool, extracted: seq<Srl>): Response {
    Response(r.sid, r.srl, r.name, if r.failed then FailOther else Ok, key, score, drop, extracted, true)
  }

  // ---- One event, and runs -------------------------------------------------------------------

  function Next(cfg: Config, s: State, step: Step): State
    requires Inv(cfg, s, NoFocus) && cfg.Valid() && Legal(s, step)
  {
    TimePasses(cfg, s, step.now);
    var s1 := WithClock(s, step.now);
    match step.event
    case Submit(m) => Submitted(cfg, s1, m, step.now, step.o)
    case Ack(sid, srl, name, seconds) =>
      AcknowledgedKeeps(cfg, s1, sid, srl, name, seconds, step.now);
      Acknowledged(cfg, s1, sid, srl, name, seconds, step.now)
    case Service(r) => Serviced(cfg, s1, r, step.now, step.o)
    case Deliver(own, key, score, drop, extracted) =>
      var s2 := Serviced(cfg, s1, Message(own, key, score, drop, extracted), step.now, step.o);
      s2.(pending := s2.pending - multiset{own})
    case Check => CheckTimeouts(cfg, s1, step.now, step.o)
  }

  lemma NextKeeps(cfg: Config, s: State, step: Step)
    requires Inv(cfg, s, NoFocus) && cfg.Valid() && Legal(s, step)
    ensures Inv(cfg, Next(cfg, s, step), NoFocus)
  {
    hide Inv, Submitted, Acknowledged, Serviced, CheckTimeouts;
    TimePasses(cfg, s, step.now);
    var s1 := WithClock(s, step.now);
    match step.event
    case Submit(m) => SubmittedKeeps(cfg, s1, m, step.now, step.o);
    case Ack(sid, srl, name, seconds) => AcknowledgedKeeps(cfg, s1, sid, srl, name, seconds, step.now);
    case Service(r) => ServicedKeeps(cfg, s1, r, step.now, step.o);
    case Deliver(own, key, score, drop, extracted) =>
      var m := Message(own, key, score, drop, extracted);
      ServicedKeeps(cfg, s1, m, step.now, step.o);
      ServicedOver(cfg, s1, m, step.now, step.o);
      RepliedKeeps(cfg, Serviced(cfg, s1, m, step.now, step.o), own);
    case Check => CheckKeeps(cfg, s1, step.now, step.o);
  }

  /** `s'` follows `s` by one legal step. */
  ghost predicate Follows(cfg: Config, s: State, step: Step, s': State) {
    Inv(cfg, s, NoFocus) && cfg.Valid() && Legal(s, step) && s' == Next(cfg, s, step)
  }

  /** `s'` is reached from `s` by the given steps. */
  ghost predicate Runs(cfg: Config, s: State, steps: seq<Step>, s': State)
    decreases |steps|
  {
    if steps == [] then s' == s
    else exists s1 :: Follows(cfg, s, steps[0], s1) && Runs(cfg, s1, steps[1..], s')
  }

  /** The invariant holds throughout every run. */
  lemma {:induction false} RunsKeep(cfg: Config, s: State, steps: seq<Step>, s': State)
    requires Inv(cfg, s, NoFocus) && cfg.Valid() && Runs(cfg, s, steps, s')
    ensures Inv(cfg, s', NoFocus)
    decreases |steps|
  {
    hide Inv, Next;
    if steps != [] {
      var s1 :| Follows(cfg, s, steps[0], s1) && Runs(cfg, s1, steps[1..], s');
      NextKeeps(cfg, s, steps[0]);
      RunsKeep(cfg, s1, steps[1..], s');
    }
  }

  ghost predicate Reachable(cfg: Config, s: State) {
    exists steps :: Runs(cfg, EMPTY, steps, s)
  }

  lemma ReachableInv(cfg: Config, s: State)
    requires cfg.Valid() && Reachable(cfg, s)
    ensures Inv(cfg, s, NoFocus)
  {
    EmptyInv(cfg);
    hide Inv;
    var steps :| Runs(cfg, EMPTY, steps, s);
    RunsKeep(cfg, EMPTY, steps, s);
  }
}
