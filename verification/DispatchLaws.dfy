/** What single operations of the dispatcher do, said of the state's fields alone. */
module DispatchLaws {
  import opened Prelude
  import opened DispatchModel
  import opened DispatchInvariant
  import opened DispatchSend
  import opened DispatchUpdate
  import opened DispatchEvents
  import opened DispatchSubmit
  import opened DispatchTimeouts
  import opened DispatchSweep
  import opened DispatchProgress
  import opened DispatchRun

  // ---- dispatch --------------------------------------------------------------------------------

  /** The service is refused: one error record is stored, whose writer will answer, and nothing is sent. */
  ghost predicate StoresError(s: State, s': State, sid: Sid, srl: Srl, name: Name, why: Reason) {
    && s'.storage == s.storage + [Error(sid, srl, name, why)]
    && s'.pending == s.pending + multiset{Reply(sid, srl, name, true)}
    && s'.sent == s.sent && s'.ackT == s.ackT
  }

  /** The service is skipped: a successful answer is queued, and nothing is stored or sent. */
  ghost predicate AnswersItself(s: State, s': State, sid: Sid, srl: Srl, name: Name) {
    && s'.pending == s.pending + multiset{Reply(sid, srl, name, false)}
    && s'.storage == s.storage && s'.sent == s.sent && s'.ackT == s.ackT
  }

  /** The service is sent the file, with an ack timeout of this length at the end of its list. */
  ghost predicate SendsOut(s: State, s': State, sid: Sid, srl: Srl, name: Name, seconds: real, now: real)
    requires Has(s, sid, srl)
  {
    && s'.sent == s.sent + multiset{(At(s, sid, srl).born, name)}
    && s'.ackT.Keys == s.ackT.Keys + {seconds}
    && (forall k | k in s'.ackT && k != seconds :: s'.ackT[k] == s.ackT[k])
    && s'.ackT[seconds] == (if seconds in s.ackT then s.ackT[seconds] else []) + [Timeout(sid, srl, name, now + seconds)]
    && s'.storage == s.storage && s'.pending == s.pending
  }

  /** Whether a service is refused, and why, skipped or sent, in the order in which the program asks. */
  lemma DispatchSays(cfg: Config, s: State, sid: Sid, srl: Srl, name: Name, now: real, o: Oracle)
    requires Has(s, sid, srl) && sid in s.completed && name in cfg.services
    ensures var s', e := Dispatch(cfg, s, sid, srl, name, now, o), At(s, sid, srl);
            var tries := if name in e.retries then e.retries[name] + 1 else 0;
            var files := |s.entries[sid]| + |s.completed[sid]|;
            var queue := if name in s.queueSize then s.queueSize[name] + 1 else 1;
            var full := cfg.services[name].timeout * (queue + 5) as real;
            && (o.down(name) ==> StoresError(s, s', sid, srl, name, ServiceDown))
            && (!o.down(name) && tries > cfg.maxRetries ==> StoresError(s, s', sid, srl, name, MaxRetries))
            && (!o.down(name) && tries == 0 && e.depth > cfg.maxDepth ==> StoresError(s, s', sid, srl, name, MaxDepth))
            && (!o.down(name) && tries == 0 && e.depth <= cfg.maxDepth && files > cfg.maxFiles ==> StoresError(s, s', sid, srl, name, MaxFiles))
            && (!o.down(name) && tries <= cfg.maxRetries && (tries >= 1 || (e.depth <= cfg.maxDepth && files <= cfg.maxFiles)) ==>
                  if o.skip(srl, name) then AnswersItself(s, s', sid, srl, name)
                  else SendsOut(s, s', sid, srl, name, if full < 7200.0 then full else 7200.0, now))
            && s'.queueSize == s.queueSize[name := queue]
            && Has(s', sid, srl) && At(s', sid, srl) == e.(retries := e.retries[name := tries])
  {
    var s1, out := Tried(s, sid, srl, name), Decide(cfg, s, sid, srl, name, o);
    TriedSays(s, sid, srl, name);
    DecideSays(cfg, s, sid, srl, name, o);
    EffectSays(s, s1, sid, srl, name, out, now);
    hide Tried, Decide, Effect, StoresError, AnswersItself, SendsOut, Put;
  }

  /** The attempt is counted before anything is decided. */
  lemma TriedSays(s: State, sid: Sid, srl: Srl, name: Name)
    requires Has(s, sid, srl)
    ensures var s1, e := Tried(s, sid, srl, name), At(s, sid, srl);
            && s1.queueSize == s.queueSize[name := if name in s.queueSize then s.queueSize[name] + 1 else 1]
            && Has(s1, sid, srl) && At(s1, sid, srl) == e.(retries := e.retries[name := if name in e.retries then e.retries[name] + 1 else 0])
            && s1.storage == s.storage && s1.pending == s.pending && s1.sent == s.sent && s1.ackT == s.ackT
  {
    var e := At(s, sid, srl);
    PutSame(s, sid, srl, e.(retries := e.retries[name := Tries(e, name)]));
    PutAt(s, sid, srl, e.(retries := e.retries[name := Tries(e, name)]), sid, srl);
    hide Put;
  }

  lemma DecideSays(cfg: Config, s: State, sid: Sid, srl: Srl, name: Name, o: Oracle)
    requires Has(s, sid, srl) && sid in s.completed && name in cfg.services
    ensures var out, e := Decide(cfg, s, sid, srl, name, o), At(s, sid, srl);
            var tries := if name in e.retries then e.retries[name] + 1 else 0;
            var files := |s.entries[sid]| + |s.completed[sid]|;
            var queue := if name in s.queueSize then s.queueSize[name] + 1 else 1;
            var full := cfg.services[name].timeout * (queue + 5) as real;
            && (o.down(name) ==> out == Refused(ServiceDown))
            && (!o.down(name) && tries > cfg.maxRetries ==> out == Refused(MaxRetries))
            && (!o.down(name) && tries == 0 && e.depth > cfg.maxDepth ==> out == Refused(MaxDepth))
            && (!o.down(name) && tries == 0 && e.depth <= cfg.maxDepth && files > cfg.maxFiles ==> out == Refused(MaxFiles))
            && (!o.down(name) && tries <= cfg.maxRetries && (tries >= 1 || (e.depth <= cfg.maxDepth && files <= cfg.maxFiles)) ==>
                  out == if o.skip(srl, name) then Skipped else Requested(if full < 7200.0 then full else 7200.0))
  {}

  lemma EffectSays(s: State, s1: State, sid: Sid, srl: Srl, name: Name, out: Outcome, now: real)
    requires Has(s, sid, srl) && s1.storage == s.storage && s1.pending == s.pending && s1.sent == s.sent && s1.ackT == s.ackT
    ensures var s' := Effect(s1, sid, srl, At(s, sid, srl).born, name, out, now);
            && s'.entries == s1.entries && s'.queueSize == s1.queueSize
            && (out.Refused? ==> StoresError(s, s', sid, srl, name, out.why))
            && (out.Skipped? ==> AnswersItself(s, s', sid, srl, name))
            && (out.Requested? ==> SendsOut(s, s', sid, srl, name, out.seconds, now))
  {}

  // ---- acknowledged ----------------------------------------------------------------------------

  /** The service of stage `st` is among the dispatched ones. */
  ghost predicate IsOut(cfg: Config, s: State, sid: Sid, srl: Srl, name: Name) {
    && Has(s, sid, srl) && name in cfg.services
    && var st := cfg.services[name].stage;
       st < |At(s, sid, srl).dispatched| && name in At(s, sid, srl).dispatched[st]
  }

  /** The service has moved from dispatched to acknowledged, is still awaited, and has a service timeout;
      its ack timeout no longer counts. */
  ghost predicate TakenUp(cfg: Config, s: State, s': State, sid: Sid, srl: Srl, name: Name, seconds: real, now: real)
    requires IsOut(cfg, s, sid, srl, name)
  {
    && Has(s', sid, srl)
    && var e, e', st := At(s, sid, srl), At(s', sid, srl), cfg.services[name].stage;
       && |e'.dispatched| == |e.dispatched| == |e'.acked| == |e.acked|
       && (forall x, n | 0 <= x < |e.dispatched| :: n in e'.dispatched[x] <==> n in e.dispatched[x] && (x != st || n != name))
       && (forall x, n | 0 <= x < |e.dispatched| :: n in e'.acked[x] <==> n in e.acked[x] || (x == st && n == name))
       && Awaited(cfg, s', sid, srl, name) && Spent(cfg, s', true, Timeout(sid, srl, name, now))
       && seconds in s'.svcT
       && s'.svcT[seconds] == (if seconds in s.svcT then s.svcT[seconds] else []) + [Timeout(sid, srl, name, now + seconds)]
  }

  /** An acknowledgement of a dispatched service is taken up; any other one changes nothing. */
  lemma AcknowledgedSays(cfg: Config, s: State, sid: Sid, srl: Srl, name: Name, seconds: real, now: real)
    requires Inv(cfg, s, NoFocus) && cfg.Valid() && now == s.clock
    ensures sid in s.entries ==> Ready(cfg, s, sid)
    ensures var s' := Acknowledged(cfg, s, sid, srl, name, seconds, now);
            && (!IsOut(cfg, s, sid, srl, name) ==> s' == s)
            && (IsOut(cfg, s, sid, srl, name) ==>
                  TakenUp(cfg, s, s', sid, srl, name, seconds, now)
                  && s'.ackT == s.ackT && s'.pending == s.pending && s'.storage == s.storage && s'.sent == s.sent)
  {
    if sid in s.entries { InvReady(cfg, s, NoFocus, sid); }
    hide Inv, Linked, TakenUp;
    if Has(s, sid, srl) {
      assert Shaped(cfg, s.entries[sid][srl]);
      if IsOut(cfg, s, sid, srl, name) { TakesUp(cfg, s, sid, srl, name, seconds, now); }
    }
  }

  lemma TakesUp(cfg: Config, s: State, sid: Sid, srl: Srl, name: Name, seconds: real, now: real)
    requires IsOut(cfg, s, sid, srl, name) && cfg.Valid() && Ready(cfg, s, sid) && Shaped(cfg, At(s, sid, srl))
    ensures TakenUp(cfg, s, Acknowledged(cfg, s, sid, srl, name, seconds, now), sid, srl, name, seconds, now)
  {
    hide Ready;
    var e, st := At(s, sid, srl), cfg.services[name].stage;
    var e1 := e.(dispatched := e.dispatched[st := e.dispatched[st] - {name}], acked := e.acked[st := e.acked[st] + {name}]);
    PutAt(s, sid, srl, e1, sid, srl);
    assert At(Acknowledged(cfg, s, sid, srl, name, seconds, now), sid, srl) == e1;
  }

  // ---- submitted -------------------------------------------------------------------------------

  /** The message may enter a file: it is meant for this dispatcher, the file is new to the submission,
      and its parent, if it has one, is held. */
  ghost predicate MayEnter(s: State, m: Submission) {
    && (m.psrl.Some? ==> m.queueOk && m.sid in s.entries && m.psrl.value in s.entries[m.sid])
    && (m.sid in s.entries ==> m.srl !in s.entries[m.sid])
    && (m.sid in s.completed ==> m.srl !in s.completed[m.sid])
  }

  /** The entry is due exactly the services the message selects, each at its own stage, and has the
      message's classification and parent. */
  ghost predicate NewFile(cfg: Config, m: Submission, e: Entry) {
    && |e.outstanding| == |e.dispatched| == |e.acked| == |e.completed| == cfg.stages + 2
    && (forall st, n | 0 <= st < |e.outstanding| :: n in e.outstanding[st] <==> n in m.select && n in cfg.services && cfg.services[n].stage == st)
    && (forall st | 0 <= st < |e.outstanding| :: e.dispatched[st] == {} && e.acked[st] == {} && e.completed[st] == {})
    && e.c12n == m.c12n && e.parent == m.psrl && e.depth == (if m.psrl.Some? then m.depth + 1 else 0)
    && e.stage == 0 && e.score == 0 && e.dropAt.None? && e.retries == map[]
    && e.extracted == {} && e.outstandingKids == {} && e.completedKids == {}
  }

  /** What becomes of another file: the parent of a child's message has heard of the child, and waits for
      it if it has entered. */
  function Other(e: Entry, m: Submission, sid: Sid, srl: Srl, entered: bool): Entry {
    if sid != m.sid || m.psrl != Some(srl) || !m.queueOk then e
    else if entered then e.(extracted := e.extracted - {m.srl}, outstandingKids := e.outstandingKids + {m.srl})
    else e.(extracted := e.extracted - {m.srl})
  }

  lemma NewFileSays(cfg: Config, s: State, m: Submission)
    ensures NewFile(cfg, m, NewEntry(cfg, s, m, DepthOf(m)))
  {}

  lemma HeardEntry(s: State, sid: Sid, psrl: Srl, kid: Srl, x: Sid, y: Srl)
    ensures var r := Heard(s, sid, psrl, kid);
            && (Has(r, x, y) <==> Has(s, x, y))
            && (Has(s, x, y) ==> At(r, x, y) == if x == sid && y == psrl then At(s, x, y).(extracted := At(s, x, y).extracted - {kid}) else At(s, x, y))
            && r.completed == s.completed && r.asked == s.asked && (x in r.entries <==> x in s.entries)
  {
    hide Put;
    if Has(s, sid, psrl) {
      var e := At(s, sid, psrl).(extracted := At(s, sid, psrl).extracted - {kid});
      PutSame(s, sid, psrl, e);
      PutAt(s, sid, psrl, e, x, y);
    }
  }

  lemma OpenEntry(s: State, sid: Sid, x: Sid, y: Srl)
    requires sid !in s.entries
    ensures (Has(Open(s, sid), x, y) <==> Has(s, x, y)) && (Has(s, x, y) ==> At(Open(s, sid), x, y) == At(s, x, y))
  {}

  /** The state in which the parent has heard of the child and the submission is open, if it gets there. */
  function Prior(s: State, m: Submission): State {
    var s1 := if m.psrl.Some? then Heard(s, m.sid, m.psrl.value, m.srl) else s;
    if m.sid in s1.entries || m.psrl.Some? then s1 else Open(s1, m.sid)
  }

  lemma PriorEntry(s: State, m: Submission, x: Sid, y: Srl)
    requires m.psrl.Some? ==> m.queueOk
    ensures var r := Prior(s, m);
            && (Has(r, x, y) <==> Has(s, x, y))
            && (Has(s, x, y) ==> At(r, x, y) == Other(At(s, x, y), m, x, y, false))
            && (x in s.entries ==> x in r.entries) && (m.psrl.None? ==> m.sid in r.entries)
            && (x in r.entries ==> x in s.entries || (x == m.sid && m.psrl.None? && r.entries[x] == map[] && m.sid in r.completed && r.completed[m.sid] == map[]))
            && (m.sid in s.entries || m.psrl.Some? ==> r.completed == s.completed && r.asked == s.asked)
  {
    hide Heard, Open;
    var s1 := if m.psrl.Some? then Heard(s, m.sid, m.psrl.value, m.srl) else s;
    if m.psrl.Some? { HeardEntry(s, m.sid, m.psrl.value, m.srl, x, y); HeardEntry(s, m.sid, m.psrl.value, m.srl, m.sid, y); }
    if m.sid !in s1.entries && m.psrl.None? { OpenEntry(s1, m.sid, x, y); OpenEmpty(s1, m.sid); OpenOnly(s1, m.sid, x); }
  }

  lemma OpenOnly(s: State, sid: Sid, x: Sid)
    ensures x in Open(s, sid).entries <==> x in s.entries || x == sid
  {}

  /** A file enters exactly if it may, with what its message says; of the other files only its parent
      changes, which waits for it instead of expecting it. */
  lemma ArrivedSays(cfg: Config, s: State, m: Submission, x: Sid, y: Srl)
    requires Inv(cfg, s, NoFocus) && cfg.Valid()
    ensures m.sid in s.entries ==> m.sid in s.completed
    ensures var (s', entered) := Arrived(cfg, s, m);
            && (entered <==> MayEnter(s, m))
            && (entered ==> Has(s', m.sid, m.srl) && NewFile(cfg, m, At(s', m.sid, m.srl))
                            && m.sid in s'.asked && m.srl in s'.asked[m.sid] && s'.asked[m.sid][m.srl] == m)
            && (Has(s', x, y) <==> Has(s, x, y) || (entered && x == m.sid && y == m.srl))
            && (Has(s, x, y) ==> At(s', x, y) == Other(At(s, x, y), m, x, y, entered))
  {
    InvSlot(cfg, s, NoFocus, m.sid);
    hide NewFile, Other, Heard, Open, Enter, MayEnter;
    if m.psrl.Some? && !m.queueOk {
      NotMeant(s, m);
      OtherSame(s, m, x, y);
    } else {
      var s2 := Prior(s, m);
      PriorEntry(s, m, x, y);
      PriorEntry(s, m, m.sid, m.srl);
      if m.psrl.Some? { PriorEntry(s, m, m.sid, m.psrl.value); }
      PriorMay(s, m);
      if Enters(s2, m) { EnteredSays(cfg, s, m, x, y); }
      ArrivedIs(cfg, s, m);
    }
  }

  lemma NotMeant(s: State, m: Submission)
    requires m.psrl.Some? && !m.queueOk
    ensures !MayEnter(s, m)
  {}

  lemma OtherSame(s: State, m: Submission, x: Sid, y: Srl)
    requires !m.queueOk
    ensures Has(s, x, y) ==> Other(At(s, x, y), m, x, y, false) == At(s, x, y)
  {}

  /** The three checks of submitted and the one of CreateEntry come to this. */
  lemma ArrivedIs(cfg: Config, s: State, m: Submission)
    requires m.sid in s.entries <==> m.sid in s.completed
    requires m.psrl.Some? ==> m.queueOk
    ensures Arrived(cfg, s, m) == if Enters(Prior(s, m), m) then (Enter(cfg, Prior(s, m), m, DepthOf(m)), true) else (Prior(s, m), false)
  {
    hide Heard, Open, Enter;
    var s1 := if m.psrl.Some? then Heard(s, m.sid, m.psrl.value, m.srl) else s;
    if m.psrl.Some? { HeardEntry(s, m.sid, m.psrl.value, m.srl, m.sid, m.srl); }
    OpenEmpty(s1, m.sid);
  }

  lemma PriorMay(s: State, m: Submission)
    requires m.sid in s.entries <==> m.sid in s.completed
    requires m.psrl.Some? ==> m.queueOk
    ensures Enters(Prior(s, m), m) <==> MayEnter(s, m)
  {
    PriorEntry(s, m, m.sid, m.srl);
    if m.psrl.Some? { PriorEntry(s, m, m.sid, m.psrl.value); }
    hide Prior;
    assert m.sid in s.entries ==> (m.srl in s.entries[m.sid] <==> Has(s, m.sid, m.srl));
  }

  lemma EnteredSays(cfg: Config, s: State, m: Submission, x: Sid, y: Srl)
    requires Inv(cfg, s, NoFocus) && cfg.Valid() && (m.psrl.Some? ==> m.queueOk) && Enters(Prior(s, m), m)
    ensures var s' := Enter(cfg, Prior(s, m), m, DepthOf(m));
            && Has(s', m.sid, m.srl) && NewFile(cfg, m, At(s', m.sid, m.srl))
            && m.sid in s'.asked && m.srl in s'.asked[m.sid] && s'.asked[m.sid][m.srl] == m
            && (Has(s', x, y) <==> Has(s, x, y) || (x == m.sid && y == m.srl))
            && (Has(s, x, y) ==> At(s', x, y) == Other(At(s, x, y), m, x, y, true))
  {
    var s2 := Prior(s, m);
    InvSlot(cfg, s, NoFocus, m.sid);
    PriorEntry(s, m, x, y);
    PriorMay(s, m);
    EnterFrame(cfg, s2, m, DepthOf(m));
    EnterEntry(cfg, s2, m, DepthOf(m), m.sid, m.srl);
    EnterEntry(cfg, s2, m, DepthOf(m), x, y);
    NewFileSays(cfg, s2, m);
    hide Inv, NewFile, Enter, NewEntry, Adopt, Prior, MayEnter, Other;
    if x == m.sid && m.psrl == Some(y) && Has(s, x, y) { ParentAdopts(cfg, s, m, x, y); }
    else if Has(s, x, y) { NotParent(s, m, x, y); }
  }

  lemma NotParent(s: State, m: Submission, x: Sid, y: Srl)
    requires x != m.sid || m.psrl != Some(y)
    ensures Has(s, x, y) ==> Other(At(s, x, y), m, x, y, true) == Other(At(s, x, y), m, x, y, false) == At(s, x, y)
  {}

  lemma ParentAdopts(cfg: Config, s: State, m: Submission, x: Sid, y: Srl)
    requires Inv(cfg, s, NoFocus) && x == m.sid && m.psrl == Some(y) && m.queueOk && Has(s, x, y) && MayEnter(s, m)
    ensures Adopt(Other(At(s, x, y), m, x, y, false), m.srl) == Other(At(s, x, y), m, x, y, true)
  {
    assert Slot(cfg, s, x);
    assert Down(s.entries[x], y, m.srl);
  }

  /** Its message stays with the file as long as its submission is held, and goes into the final record. */
  lemma SubmittedSays(cfg: Config, s: State, m: Submission, now: real, o: Oracle)
    requires Inv(cfg, s, NoFocus) && cfg.Valid() && o.Valid() && now == s.clock
    ensures var s' := Submitted(cfg, s, m, now, o);
            && (MayEnter(s, m) ==>
                  if m.sid in s'.entries then m.sid in s'.asked && m.srl in s'.asked[m.sid] && s'.asked[m.sid][m.srl] == m
                  else exists r :: r in s'.storage && r.Finalize? && r.sid == m.sid && m.srl in r.asked && r.asked[m.srl] == m)
            && (!MayEnter(s, m) ==> s'.storage == s.storage && s'.pending == s.pending && s'.sent == s.sent)
  {
    hide Inv, Arrived, MayEnter, NewFile, Fresh, KeepsDone, Tells;
    ArrivedSays(cfg, s, m, m.sid, m.srl);
    ArrivedKeeps(cfg, s, m);
    SubmittedKeeps(cfg, s, m, now, o);
    var (s1, entered) := Arrived(cfg, s, m);
    var s' := Submitted(cfg, s, m, now, o);
    if entered {
      InvReady(cfg, s1, Focus(m.sid, m.srl, {}), m.sid);
      UpdateMoves(cfg, s1, m.sid, m.srl, now, o);
      assert Kept(s1, s', m.sid);
      HeldBooks(cfg, s', m.sid);
    } else {
      InvSlot(cfg, s, NoFocus, m.sid);
      NotEntered(cfg, s, m);
    }
  }

  lemma HeldBooks(cfg: Config, s: State, sid: Sid)
    requires Inv(cfg, s, NoFocus)
    ensures sid in s.entries <==> sid in s.asked
    ensures sid in s.entries <==> sid in s.log
  {
    assert Slot(cfg, s, sid);
  }

  lemma NotEntered(cfg: Config, s: State, m: Submission)
    requires (m.sid in s.entries <==> m.sid in s.completed) && !Arrived(cfg, s, m).1
    ensures var s' := Arrived(cfg, s, m).0; s'.storage == s.storage && s'.pending == s.pending && s'.sent == s.sent
  {
    hide Enter, Prior;
    if m.psrl.Some? ==> m.queueOk {
      ArrivedIs(cfg, s, m);
      PriorStorage(s, m);
    }
  }

  lemma PriorStorage(s: State, m: Submission)
    ensures var r := Prior(s, m); r.storage == s.storage && r.pending == s.pending && r.sent == s.sent
  {
    hide Heard, Open;
    if m.psrl.Some? { HeardStorage(s, m.sid, m.psrl.value, m.srl); }
    OpenStorage(s, m.sid);
  }

  lemma HeardStorage(s: State, sid: Sid, psrl: Srl, kid: Srl)
    ensures var r := Heard(s, sid, psrl, kid); r.storage == s.storage && r.pending == s.pending && r.sent == s.sent
  {
    hide Put;
    if Has(s, sid, psrl) { PutSame(s, sid, psrl, At(s, sid, psrl).(extracted := At(s, sid, psrl).extracted - {kid})); }
  }

  lemma OpenStorage(s: State, sid: Sid)
    ensures var r := Open(s, sid); r.storage == s.storage && r.pending == s.pending && r.sent == s.sent
  {}

  // ---- serviced --------------------------------------------------------------------------------

  /** The timeout is in the list of this length. */
  predicate Listed(t: Table<Srl>, seconds: real, x: Timeout<Srl>) {
    seconds in t && x in t[seconds]
  }

  /** The announced children that nothing is known of. */
  function Unseen(s: State, sid: Sid, srl: Srl, kids: seq<Srl>): set<Srl>
    requires Has(s, sid, srl) && sid in s.completed
  {
    set k | k in kids && k !in s.entries[sid] && k !in s.completed[sid]
            && k !in At(s, sid, srl).outstandingKids && k !in At(s, sid, srl).completedKids
  }

  /** Children are noted, each with a timeout, and nothing else has changed. */
  ghost predicate Notes(cfg: Config, s: State, s': State, sid: Sid, srl: Srl, cs: set<Srl>, now: real)
    requires Has(s, sid, srl)
  {
    && s' == s.(entries := s'.entries, childT := s'.childT)
    && s'.entries.Keys == s.entries.Keys && s'.entries[sid].Keys == s.entries[sid].Keys
    && Has(s', sid, srl) && At(s', sid, srl) == At(s, sid, srl).(extracted := At(s, sid, srl).extracted + cs)
    && (forall k, x | Listed(s.childT, k, x) :: Listed(s'.childT, k, x))
    && forall c | c in cs :: Listed(s'.childT, cfg.childSeconds, Timeout(sid, srl, c, now + cfg.childSeconds))
  }

  lemma ArmListed(t: Table<Srl>, seconds: real, x: Timeout<Srl>)
    ensures Listed(Arm(t, seconds, x), seconds, x)
    ensures forall k, y | Listed(t, k, y) :: Listed(Arm(t, seconds, x), k, y)
  {
    var t' := Arm(t, seconds, x);
    assert t'[seconds][|t'[seconds]| - 1] == x;
  }

  lemma NotedSays(cfg: Config, s: State, sid: Sid, srl: Srl, kid: Srl, now: real)
    requires Has(s, sid, srl) && sid in s.completed
    ensures Notes(cfg, s, Noted(cfg, s, sid, srl, kid, now), sid, srl, Unseen(s, sid, srl, [kid]), now)
  {
    var e := At(s, sid, srl);
    assert kid in [kid];
    if kid in Unseen(s, sid, srl, [kid]) {
      assert Unseen(s, sid, srl, [kid]) == {kid};
      ArmListed(s.childT, cfg.childSeconds, Timeout(sid, srl, kid, now + cfg.childSeconds));
      PutSame(s, sid, srl, e.(extracted := e.extracted + {kid}));
      PutKeys(s, sid, srl, e.(extracted := e.extracted + {kid}));
      PutAt(s, sid, srl, e.(extracted := e.extracted + {kid}), sid, srl);
      hide Put, Arm, Listed;
      assert Noted(cfg, s, sid, srl, kid, now).entries.Keys == s.entries.Keys;
    } else {
      assert Unseen(s, sid, srl, [kid]) == {};
    }
  }

  lemma NotesTrans(cfg: Config, s0: State, s1: State, s2: State, sid: Sid, srl: Srl, a: set<Srl>, b: set<Srl>, now: real)
    requires Has(s0, sid, srl) && Notes(cfg, s0, s1, sid, srl, a, now) && Notes(cfg, s1, s2, sid, srl, b, now)
    ensures Notes(cfg, s0, s2, sid, srl, a + b, now)
  {
    hide Listed;
    assert At(s0, sid, srl).extracted + (a + b) == (At(s0, sid, srl).extracted + a) + b;
  }

  lemma {:induction false} AnnounceSays(cfg: Config, s: State, sid: Sid, srl: Srl, kids: seq<Srl>, now: real)
    requires Has(s, sid, srl) && sid in s.completed
    ensures Notes(cfg, s, Announce(cfg, s, sid, srl, kids, now), sid, srl, Unseen(s, sid, srl, kids), now)
    decreases |kids|
  {
    if kids == [] {
      assert Unseen(s, sid, srl, kids) == {};
    } else {
      var s1 := Noted(cfg, s, sid, srl, kids[0], now);
      NotedSays(cfg, s, sid, srl, kids[0], now);
      UnseenLater(cfg, s, s1, sid, srl, kids, now);
      AnnounceSays(cfg, s1, sid, srl, kids[1..], now);
      hide Noted, Unseen, Notes;
      NotesTrans(cfg, s, s1, Announce(cfg, s, sid, srl, kids, now), sid, srl, Unseen(s, sid, srl, [kids[0]]), Unseen(s1, sid, srl, kids[1..]), now);
    }
  }

  lemma UnseenLater(cfg: Config, s: State, s1: State, sid: Sid, srl: Srl, kids: seq<Srl>, now: real)
    requires Has(s, sid, srl) && sid in s.completed && kids != []
    requires Notes(cfg, s, s1, sid, srl, Unseen(s, sid, srl, [kids[0]]), now)
    ensures Unseen(s, sid, srl, kids) == Unseen(s, sid, srl, [kids[0]]) + Unseen(s1, sid, srl, kids[1..])
  {
    hide Listed;
    assert forall k :: k in kids <==> k in [kids[0]] || k in kids[1..];
    assert forall k :: k in s.entries[sid] <==> k in s1.entries[sid];
  }

  /** Everything pushed in between is an error record. */
  ghost predicate OnlyErrors(storage: seq<StorageMsg>, storage': seq<StorageMsg>) {
    storage <= storage' && forall i | |storage| <= i < |storage'| :: storage'[i].Error?
  }

  lemma {:induction false} DispatchAllErrors(cfg: Config, s: State, sid: Sid, srl: Srl, names: seq<Name>, now: real, o: Oracle)
    requires Has(s, sid, srl) && sid in s.completed && forall n | n in names :: n in cfg.services
    ensures OnlyErrors(s.storage, DispatchAll(cfg, s, sid, srl, names, now, o).storage)
    decreases |names|
  {
    if names != [] {
      var s1 := Dispatch(cfg, s, sid, srl, names[0], now, o);
      DispatchErrors(cfg, s, sid, srl, names[0], now, o);
      hide Dispatch;
      DispatchAllErrors(cfg, s1, sid, srl, names[1..], now, o);
    }
  }

  lemma DispatchErrors(cfg: Config, s: State, sid: Sid, srl: Srl, name: Name, now: real, o: Oracle)
    requires Has(s, sid, srl) && sid in s.completed && name in cfg.services
    ensures OnlyErrors(s.storage, Dispatch(cfg, s, sid, srl, name, now, o).storage)
  {
    hide Tried, Decide, Effect, OnlyErrors;
    TriedSays(s, sid, srl, name);
    EffectErrors(Tried(s, sid, srl, name), sid, srl, At(s, sid, srl).born, name, Decide(cfg, s, sid, srl, name, o), now);
  }

  lemma EffectErrors(s: State, sid: Sid, srl: Srl, born: nat, name: Name, out: Outcome, now: real)
    ensures OnlyErrors(s.storage, Effect(s, sid, srl, born, name, out, now).storage)
  {
    hide Arm;
  }

  lemma SendStays(cfg: Config, s: State, sid: Sid, srl: Srl, e: Entry, names: seq<Name>, now: real, o: Oracle)
    requires sid in s.entries && sid in s.completed && forall n | n in names :: n in cfg.services
    ensures var s' := DispatchAll(cfg, Put(s, sid, srl, e), sid, srl, names, now, o);
            Has(s', sid, srl) && At(s', sid, srl).extracted == e.extracted && OnlyErrors(s.storage, s'.storage)
  {
    var s1 := Put(s, sid, srl, e);
    PutAt(s, sid, srl, e, sid, srl);
    PutSame(s, sid, srl, e);
    hide Put, DispatchAll;
    DispatchAllErrors(cfg, s1, sid, srl, names, now, o);
    DispatchAllSends(cfg, s1, sid, srl, names, now, o);
    assert Retried(e, At(DispatchAll(cfg, s1, sid, srl, names, now, o), sid, srl));
  }

  /** A file with announced children stays, whatever stage it reaches. */
  lemma UpdateStays(cfg: Config, s: State, sid: Sid, srl: Srl, now: real, o: Oracle)
    requires Ready(cfg, s, sid) && srl in s.entries[sid] && o.Valid() && At(s, sid, srl).extracted != {}
    ensures var s' := Update(cfg, s, sid, srl, now, o);
            && Has(s', sid, srl) && At(s', sid, srl).extracted == At(s, sid, srl).extracted
            && OnlyErrors(s.storage, s'.storage)
  {
    hide Linked, Remove, DispatchAll, OnlyErrors;
    var e := At(s, sid, srl);
    var stage := NextStage(cfg, e, e.stage);
    if stage == cfg.Done() || e.dispatched[stage] != {} {
      PutAt(s, sid, srl, e.(stage := stage), sid, srl);
      PutSame(s, sid, srl, e.(stage := stage));
      NoErrors(s.storage);
    } else {
      var todo := e.outstanding[stage];
      var e1 := e.(stage := stage, dispatched := e.dispatched[stage := todo], outstanding := e.outstanding[stage := {}]);
      assert Lists(o.order(todo), todo);
      SendStays(cfg, s, sid, srl, e1, o.order(todo), now, o);
    }
  }

  lemma NoErrors(storage: seq<StorageMsg>)
    ensures OnlyErrors(storage, storage)
  {}

  /** The reply is for a service that is dispatched or acknowledged on a held file, meant for this
      dispatcher, and not a failure to recover from. */
  ghost predicate Counts(cfg: Config, s: State, m: Response) {
    && Has(s, m.sid, m.srl) && m.name in cfg.services && m.queueOk && !m.status.FailRecoverable?
    && var e, st := At(s, m.sid, m.srl), cfg.services[m.name].stage;
       st < |e.acked| && st < |e.dispatched| && (m.name in e.acked[st] || m.name in e.dispatched[st])
  }

  /** The children a successful answer announces that are neither held nor completed. */
  function NewKids(s: State, m: Response): set<Srl>
    requires m.sid in s.entries && m.sid in s.completed
  {
    if m.status == Ok then set k | k in m.extracted && k !in s.entries[m.sid] && k !in s.completed[m.sid] else {}
  }

  /** Once the answer is recorded: the log has it, and its new children are expected. */
  ghost predicate TakenIn(cfg: Config, s: State, s': State, m: Response, now: real)
    requires Has(s, m.sid, m.srl) && m.sid in s.completed && m.sid in s.log
  {
    && s'.log == s.log[m.sid := s.log[m.sid] + [Finished(m.srl, m.name, m.status == Ok, m.score, m.key, m.drop)]]
    && s'.asked == s.asked && s'.storage == s.storage && s'.pending == s.pending
    && Has(s', m.sid, m.srl) && At(s', m.sid, m.srl).extracted == At(s, m.sid, m.srl).extracted + NewKids(s, m)
    && forall c | c in NewKids(s, m) :: Listed(s'.childT, cfg.childSeconds, Timeout(m.sid, m.srl, c, now + cfg.childSeconds))
  }

  /** Children a held file waits for, or has finished, are held or completed. */
  lemma KidsSeen(cfg: Config, s: State, sid: Sid, srl: Srl, kids: seq<Srl>)
    requires SubOk(cfg, s, sid) && Has(s, sid, srl)
    ensures Unseen(s, sid, srl, kids) == set k | k in kids && k !in s.entries[sid] && k !in s.completed[sid]
  {
    hide LogOk, AskedOk, Best, Keys;
    forall k | k in At(s, sid, srl).outstandingKids ensures k in s.entries[sid] { assert Down(s.entries[sid], srl, k); }
    hide Linked;
  }

  lemma RecordedSays(cfg: Config, s: State, m: Response)
    requires Answers(cfg, s, m)
    ensures var s1 := Recorded(cfg, s, m);
            && m.sid in s.log && s1.log == s.log[m.sid := s.log[m.sid] + [Finished(m.srl, m.name, m.status == Ok, m.score, m.key, m.drop)]]
            && s1.asked == s.asked && s1.storage == s.storage && s1.pending == s.pending && s1.completed == s.completed
            && Has(s1, m.sid, m.srl) && At(s1, m.sid, m.srl).extracted == At(s, m.sid, m.srl).extracted
            && s1.entries[m.sid].Keys == s.entries[m.sid].Keys
  {
    RecordedFrame(cfg, s, m);
    RecordedEntry(cfg, s, m, m.sid, m.srl);
    AnsweredExtracted(cfg, At(s, m.sid, m.srl), m, cfg.services[m.name].stage);
    hide SubOk, EntryOk, Shaped, Answered;
  }

  lemma AnsweredExtracted(cfg: Config, e: Entry, m: Response, st: nat)
    requires Shaped(cfg, e) && st <= cfg.Done()
    ensures Answered(cfg, e, m, st).extracted == e.extracted
  {}

  lemma CreditSays(cfg: Config, s: State, m: Response, now: real)
    requires Answers(cfg, s, m) && Inv(cfg, s, NoFocus) && now == s.clock && Ready(cfg, s, m.sid)
    ensures m.sid in s.completed && m.sid in s.log && TakenIn(cfg, s, Credit(cfg, s, m, now), m, now)
  {
    var s1 := Recorded(cfg, s, m);
    RecordedSays(cfg, s, m);
    RecordedSub(cfg, s, m);
    InvSlot(cfg, s, NoFocus, m.sid);
    hide Inv, Answers, Recorded, Notes, Listed, SubOk, Unseen, Ready, TakenIn, Announce, Waits, Linked;
    if m.status.Ok? {
      AnnounceSays(cfg, s1, m.sid, m.srl, m.extracted, now);
      KidsSeen(cfg, s1, m.sid, m.srl, m.extracted);
      NotesTakenIn(cfg, s, s1, Credit(cfg, s, m, now), m, now);
    } else {
      NoneTakenIn(cfg, s, s1, m, now);
    }
  }

  lemma NoneTakenIn(cfg: Config, s: State, s1: State, m: Response, now: real)
    requires !m.status.Ok? && Has(s, m.sid, m.srl) && m.sid in s.completed && m.sid in s.log && Has(s1, m.sid, m.srl)
    requires s1.log == s.log[m.sid := s.log[m.sid] + [Finished(m.srl, m.name, false, m.score, m.key, m.drop)]]
    requires s1.asked == s.asked && s1.storage == s.storage && s1.pending == s.pending
    requires At(s1, m.sid, m.srl).extracted == At(s, m.sid, m.srl).extracted
    ensures TakenIn(cfg, s, s1, m, now)
  {
    assert NewKids(s, m) == {};
  }

  lemma NotesTakenIn(cfg: Config, s: State, s1: State, s2: State, m: Response, now: real)
    requires m.status.Ok? && Has(s, m.sid, m.srl) && m.sid in s.completed && m.sid in s.log && Has(s1, m.sid, m.srl) && m.sid in s1.completed
    requires s1.log == s.log[m.sid := s.log[m.sid] + [Finished(m.srl, m.name, true, m.score, m.key, m.drop)]]
    requires s1.asked == s.asked && s1.storage == s.storage && s1.pending == s.pending && s1.completed == s.completed
    requires At(s1, m.sid, m.srl).extracted == At(s, m.sid, m.srl).extracted && s1.entries[m.sid].Keys == s.entries[m.sid].Keys
    requires Notes(cfg, s1, s2, m.sid, m.srl, (set k | k in m.extracted && k !in s1.entries[m.sid] && k !in s1.completed[m.sid]), now)
    ensures TakenIn(cfg, s, s2, m, now)
  {
    hide Listed;
    assert NewKids(s, m) == set k | k in m.extracted && k !in s1.entries[m.sid] && k !in s1.completed[m.sid];
  }

  /** An answer that counts is in the submission's history exactly as it came, and a child it announces
      that nothing is known of is expected, with its timeout armed; while it is, the file stays and its
      submission is not closed. */
  lemma ServicedSays(cfg: Config, s: State, m: Response, now: real, o: Oracle)
    requires Inv(cfg, s, NoFocus) && cfg.Valid() && o.Valid() && now == s.clock && Counts(cfg, s, m)
    ensures m.sid in s.completed && m.sid in s.log
    ensures var s' := Serviced(cfg, s, m, now, o);
            var log := s.log[m.sid] + [Finished(m.srl, m.name, m.status == Ok, m.score, m.key, m.drop)];
            var e, kids := At(s, m.sid, m.srl), NewKids(s, m);
            && (if m.sid in s'.entries then m.sid in s'.log && s'.log[m.sid] == log
                else exists r :: r in s'.storage && r.Finalize? && r.sid == m.sid && r.log == log)
            && (forall c | c in kids :: Listed(s'.childT, cfg.childSeconds, Timeout(m.sid, m.srl, c, now + cfg.childSeconds)))
            && (e.extracted + kids != {} ==>
                  && Has(s', m.sid, m.srl) && At(s', m.sid, m.srl).extracted == e.extracted + kids
                  && OnlyErrors(s.storage, s'.storage))
  {
    hide Inv, Ready, Responded, Dequeued, Awaited, Serviced, Listed, SubOk, EntryOk;
    ServicedIs(cfg, s, m, now, o);
    ServicedKeeps(cfg, s, m, now, o);
    AwaitedCounts(cfg, s, m);
    DequeuedSame(s, m.name);
    HeldBooks(cfg, Serviced(cfg, s, m, now, o), m.sid);
    RespondedSays(cfg, Dequeued(s, m.name), m, now, o);
  }

  lemma AwaitedCounts(cfg: Config, s: State, m: Response)
    requires Counts(cfg, s, m)
    ensures Awaited(cfg, s, m.sid, m.srl, m.name)
  {}

  lemma DequeuedSame(s: State, name: Name)
    ensures var r := Dequeued(s, name); r == s.(queueSize := r.queueSize)
  {}

  /** Moving the entry on takes nothing of that back. */
  lemma TakenInLater(cfg: Config, s: State, s2: State, m: Response, now: real, o: Oracle)
    requires Has(s, m.sid, m.srl) && m.sid in s.completed && m.sid in s.log && TakenIn(cfg, s, s2, m, now)
    requires Ready(cfg, s2, m.sid) && o.Valid()
    ensures var s' := Update(cfg, s2, m.sid, m.srl, now, o);
            var log := s.log[m.sid] + [Finished(m.srl, m.name, m.status == Ok, m.score, m.key, m.drop)];
            var e, kids := At(s, m.sid, m.srl), NewKids(s, m);
            && (if m.sid in s'.log then s'.log[m.sid] == log
                else exists r :: r in s'.storage && r.Finalize? && r.sid == m.sid && r.log == log)
            && (forall c | c in kids :: Listed(s'.childT, cfg.childSeconds, Timeout(m.sid, m.srl, c, now + cfg.childSeconds)))
            && (e.extracted + kids != {} ==>
                  && Has(s', m.sid, m.srl) && At(s', m.sid, m.srl).extracted == e.extracted + kids
                  && OnlyErrors(s.storage, s'.storage))
  {
    hide Ready, Update, Listed, Fresh, KeepsDone, Tells, OnlyErrors, NewKids;
    UpdateMoves(cfg, s2, m.sid, m.srl, now, o);
    assert Kept(s2, Update(cfg, s2, m.sid, m.srl, now, o), m.sid);
    if At(s2, m.sid, m.srl).extracted != {} { UpdateStays(cfg, s2, m.sid, m.srl, now, o); }
  }

  lemma RespondedIs(cfg: Config, s: State, m: Response, now: real, o: Oracle)
    requires Inv(cfg, s, NoFocus) && cfg.Valid() && o.Valid() && now == s.clock && Counts(cfg, s, m)
    requires (m.sid in s.entries ==> Ready(cfg, s, m.sid)) && Awaited(cfg, s, m.sid, m.srl, m.name)
    ensures Answers(cfg, s, m) && Ready(cfg, s, m.sid)
    ensures var s2 := Credit(cfg, s, m, now);
            Ready(cfg, s2, m.sid) && Has(s2, m.sid, m.srl) && Responded(cfg, s, m, now, o) == Update(cfg, s2, m.sid, m.srl, now, o)
  {
    HeldFacts(cfg, s, NoFocus, m.sid, m.srl);
    assert Answers(cfg, s, m) by { assert Slot(cfg, s, m.sid); assert Shaped(cfg, s.entries[m.sid][m.srl]); }
    hide Inv, EntryOk, Covered, Linked, Shaped, Credit, Update, SubOk, Answers;
    CreditKeeps(cfg, s, m, now);
    InvReady(cfg, Credit(cfg, s, m, now), Focus(m.sid, m.srl, {}), m.sid);
  }

  lemma RespondedSays(cfg: Config, s: State, m: Response, now: real, o: Oracle)
    requires Inv(cfg, s, NoFocus) && cfg.Valid() && o.Valid() && now == s.clock && Counts(cfg, s, m)
    requires (m.sid in s.entries ==> Ready(cfg, s, m.sid)) && Awaited(cfg, s, m.sid, m.srl, m.name)
    ensures m.sid in s.completed && m.sid in s.log
    ensures var s' := Responded(cfg, s, m, now, o);
            var log := s.log[m.sid] + [Finished(m.srl, m.name, m.status == Ok, m.score, m.key, m.drop)];
            var e, kids := At(s, m.sid, m.srl), NewKids(s, m);
            && (if m.sid in s'.log then s'.log[m.sid] == log
                else exists r :: r in s'.storage && r.Finalize? && r.sid == m.sid && r.log == log)
            && (forall c | c in kids :: Listed(s'.childT, cfg.childSeconds, Timeout(m.sid, m.srl, c, now + cfg.childSeconds)))
            && (e.extracted + kids != {} ==>
                  && Has(s', m.sid, m.srl) && At(s', m.sid, m.srl).extracted == e.extracted + kids
                  && OnlyErrors(s.storage, s'.storage))
  {
    hide Inv, Ready, Answers, Credit, Update, Responded, Listed, OnlyErrors, Awaited, TakenIn, NewKids;
    RespondedIs(cfg, s, m, now, o);
    CreditSays(cfg, s, m, now);
    TakenInLater(cfg, s, Credit(cfg, s, m, now), m, now, o);
  }

  /** The service's queue is one shorter, as far as the dispatcher knows. */
  function Shorter(queueSize: map<Name, nat>, name: Name): map<Name, nat> {
    if name in queueSize && queueSize[name] > 0 then queueSize[name := queueSize[name] - 1] else queueSize
  }

  /** The other answers: a reply nobody waits for is ignored, one meant for another dispatcher only leaves
      the queue, and a failure to recover from makes the service be tried once more. */
  lemma ServicedOtherwise(cfg: Config, s: State, m: Response, now: real, o: Oracle)
    requires Inv(cfg, s, NoFocus) && cfg.Valid() && o.Valid() && now == s.clock
    ensures m.sid in s.entries ==> Ready(cfg, s, m.sid)
    ensures var s', s1 := Serviced(cfg, s, m, now, o), s.(queueSize := Shorter(s.queueSize, m.name));
            && (!Awaited(cfg, s, m.sid, m.srl, m.name) ==> s' == s)
            && (Awaited(cfg, s, m.sid, m.srl, m.name) && !m.queueOk ==> s' == s1)
            && (Awaited(cfg, s, m.sid, m.srl, m.name) && m.queueOk && m.status.FailRecoverable? ==>
                  m.sid in s.completed && s' == Dispatch(cfg, s1, m.sid, m.srl, m.name, now, o))
  {
    hide Inv, Ready, Responded, Awaited, Serviced, Dispatch;
    ServicedIs(cfg, s, m, now, o);
    InvSlot(cfg, s, NoFocus, m.sid);
    DequeuedIs(s, m.name);
    hide Dequeued, Shorter;
    if Awaited(cfg, s, m.sid, m.srl, m.name) { RespondedOtherwise(cfg, Dequeued(s, m.name), m, now, o); }
  }

  lemma DequeuedIs(s: State, name: Name)
    ensures Dequeued(s, name) == s.(queueSize := Shorter(s.queueSize, name))
  {}

  lemma RespondedOtherwise(cfg: Config, s: State, m: Response, now: real, o: Oracle)
    requires Inv(cfg, s, NoFocus) && cfg.Valid() && o.Valid() && now == s.clock
    requires (m.sid in s.entries ==> Ready(cfg, s, m.sid)) && Awaited(cfg, s, m.sid, m.srl, m.name)
    ensures m.sid in s.completed
    ensures !m.queueOk ==> Responded(cfg, s, m, now, o) == s
    ensures m.queueOk && m.status.FailRecoverable? ==> Responded(cfg, s, m, now, o) == Dispatch(cfg, s, m.sid, m.srl, m.name, now, o)
  {
    HeldFacts(cfg, s, NoFocus, m.sid, m.srl);
    InvSlot(cfg, s, NoFocus, m.sid);
    WaitingStage(cfg, At(s, m.sid, m.srl), m.name, cfg.services[m.name].stage);
    hide Inv, EntryOk, Covered, Linked, Credit, Update, Dispatch;
  }

  // ---- check_timeouts --------------------------------------------------------------------------

  /** The timeout's file is held, its service not completed and, for an ack timeout, not acknowledged. */
  ghost predicate StillDue(cfg: Config, s: State, ack: bool, t: Timeout<Name>) {
    && Has(s, t.sid, t.srl) && t.data in cfg.services
    && var e, st := At(s, t.sid, t.srl), cfg.services[t.data].stage;
       st < |e.completed| && st < |e.acked| && t.data !in e.completed[st] && !(ack && t.data in e.acked[st])
  }

  /** The service has been tried once more, and the timeout is armed again, last of its list. */
  ghost predicate TriedOnceMore(s: State, s': State, ack: bool, k: real, t: Timeout<Name>, now: real) {
    && Has(s, t.sid, t.srl) && Has(s', t.sid, t.srl)
    && var e, v := At(s, t.sid, t.srl), Get(TableOf(s', ack), k, []);
       && At(s', t.sid, t.srl) == e.(retries := e.retries[t.data := if t.data in e.retries then e.retries[t.data] + 1 else 0])
       && v != [] && v[|v| - 1] == Timeout(t.sid, t.srl, t.data, now + k)
       && Acted(s, s', t.sid, t.srl, e.born, t.data)
  }

  /** An expired timeout leads to exactly one more attempt, and is armed again, if it is still due;
      otherwise it goes, and nothing else happens. */
  lemma FireSays(cfg: Config, s: State, ack: bool, k: real, now: real, o: Oracle)
    requires Inv(cfg, s, NoFocus) && cfg.Valid() && k in TableOf(s, ack) && TableOf(s, ack)[k] != []
    ensures var t, s' := TableOf(s, ack)[k][0], Fire(cfg, s, ack, k, now, o);
            if StillDue(cfg, s, ack, t) then TriedOnceMore(s, s', ack, k, t, now)
            else s' == WithTable(s, ack, TableOf(s, ack)[k := TableOf(s, ack)[k][1..]])
  {
    FireIs(cfg, s, ack, k, now, o);
    hide Inv, Fire, StillDue, TriedOnceMore, Arm, Dispatch;
    if StillDue(cfg, s, ack, TableOf(s, ack)[k][0]) { FireAgain(cfg, s, ack, k, now, o); }
  }

  lemma FireAgain(cfg: Config, s: State, ack: bool, k: real, now: real, o: Oracle)
    requires Inv(cfg, s, NoFocus) && cfg.Valid() && k in TableOf(s, ack) && TableOf(s, ack)[k] != []
    requires StillDue(cfg, s, ack, TableOf(s, ack)[k][0])
    ensures TriedOnceMore(s, Fire(cfg, s, ack, k, now, o), ack, k, TableOf(s, ack)[k][0], now)
  {
    hide Inv, Fire, Acted, StillDue, Dispatch, Wanted, Arm, Rest;
    var t := TableOf(s, ack)[k][0];
    FireIs(cfg, s, ack, k, now, o);
    DueHeld(cfg, s, ack, t);
    FireActs(cfg, s, ack, k, now, o, t.sid, t.srl, t.data);
    hide TableOf, WithTable;
    var s1 := WithTable(s, ack, Rest(TableOf(s, ack), k));
    TriedAgain(cfg, s1, t.sid, t.srl, t.data, now, o);
    var s2 := Dispatch(cfg, s1, t.sid, t.srl, t.data, now, o);
    var x := Timeout(t.sid, t.srl, t.data, now + k);
    ArmLast(TableOf(s2, ack), k, x);
    TableSet(s2, ack, Arm(TableOf(s2, ack), k, x), t.sid, t.srl);
  }

  lemma TableSet(s: State, ack: bool, t: Table<Name>, sid: Sid, srl: Srl)
    requires Has(s, sid, srl)
    ensures var r := WithTable(s, ack, t); TableOf(r, ack) == t && Has(r, sid, srl) && At(r, sid, srl) == At(s, sid, srl)
  {}

  lemma DueHeld(cfg: Config, s: State, ack: bool, t: Timeout<Name>)
    requires StillDue(cfg, s, ack, t)
    ensures Has(s, t.sid, t.srl) && Wanted(cfg, At(s, t.sid, t.srl), ack, t.data)
  {}

  lemma TriedAgain(cfg: Config, s: State, sid: Sid, srl: Srl, name: Name, now: real, o: Oracle)
    requires Has(s, sid, srl) && sid in s.completed && name in cfg.services
    ensures var s', e := Dispatch(cfg, s, sid, srl, name, now, o), At(s, sid, srl);
            Has(s', sid, srl) && At(s', sid, srl) == e.(retries := e.retries[name := if name in e.retries then e.retries[name] + 1 else 0])
  {
    hide Dispatch, StoresError, SendsOut, AnswersItself;
    DispatchSays(cfg, s, sid, srl, name, now, o);
  }

  lemma ArmLast(t: Table<Name>, k: real, x: Timeout<Name>)
    ensures var v := Get(Arm(t, k, x), k, []); v != [] && v[|v| - 1] == x
  {}

  lemma FireIs(cfg: Config, s: State, ack: bool, k: real, now: real, o: Oracle)
    requires Inv(cfg, s, NoFocus) && cfg.Valid() && k in TableOf(s, ack) && TableOf(s, ack)[k] != []
    ensures var t, s1 := TableOf(s, ack)[k][0], WithTable(s, ack, Rest(TableOf(s, ack), k));
            && t.data in cfg.services && (Has(s, t.sid, t.srl) ==> Has(s1, t.sid, t.srl) && t.sid in s1.completed && At(s1, t.sid, t.srl) == At(s, t.sid, t.srl))
            && (if StillDue(cfg, s, ack, t) then
                  var s2 := Dispatch(cfg, s1, t.sid, t.srl, t.data, now, o);
                  Fire(cfg, s, ack, k, now, o) == WithTable(s2, ack, Arm(TableOf(s2, ack), k, Timeout(t.sid, t.srl, t.data, now + k)))
                else Fire(cfg, s, ack, k, now, o) == s1)
  {
    var t := TableOf(s, ack)[k][0];
    var s1 := WithTable(s, ack, Rest(TableOf(s, ack), k));
    HeadKnown(cfg, s, ack, k);
    InvSlot(cfg, s, NoFocus, t.sid);
    InvReadyIf(cfg, s, t.sid);
    hide Inv, Dispatch, Ready;
    if t.sid in s.entries { SameReady(cfg, s, ack, Rest(TableOf(s, ack), k), t.sid); }
    DueIsResend(cfg, s1, ack, t);
    hide Resend, Rest;
  }

  lemma DueIsResend(cfg: Config, s: State, ack: bool, t: Timeout<Name>)
    requires (t.sid in s.entries ==> Ready(cfg, s, t.sid)) && cfg.Valid() && t.data in cfg.services
    ensures StillDue(cfg, s, ack, t) <==> Resend(cfg, s, ack, t.sid, t.srl, t.data)
  {
    if Has(s, t.sid, t.srl) { assert Shaped(cfg, s.entries[t.sid][t.srl]); }
  }

  lemma FireStamp(cfg: Config, s: State, ack: bool, k: real, now: real, o: Oracle)
    requires Inv(cfg, s, NoFocus) && cfg.Valid() && k in TableOf(s, ack) && TableOf(s, ack)[k] != []
    ensures Fire(cfg, s, ack, k, now, o).lastCheck == s.lastCheck
  {
    FireIs(cfg, s, ack, k, now, o);
    var t := TableOf(s, ack)[k][0];
    hide Inv, Fire, Dispatch, Rest, Arm, KeepsDone, Tells, Books, Fresh;
    if StillDue(cfg, s, ack, t) { DispatchMoves(cfg, WithTable(s, ack, Rest(TableOf(s, ack), k)), t.sid, t.srl, t.data, now, o); }
  }

  lemma {:induction false} ScanStamp(cfg: Config, s: State, ack: bool, k: real, m: nat, now: real, o: Oracle)
    requires Inv(cfg, s, NoFocus) && cfg.Valid() && now == s.clock
    requires k in TableOf(s, ack) && m <= |TableOf(s, ack)[k]|
    ensures Scan(cfg, s, ack, k, m, now, o).lastCheck == s.lastCheck
    decreases m
  {
    if m > 0 {
      ScanFirst(cfg, s, ack, k, m, now, o);
      FireStamp(cfg, s, ack, k, now, o);
      hide Inv, Fire, Scan, Goes;
      ScanStamp(cfg, Fire(cfg, s, ack, k, now, o), ack, k, m - 1, now, o);
    }
  }

  lemma {:induction false} SweepStamp(cfg: Config, s: State, ack: bool, keys: seq<real>, now: real, o: Oracle)
    requires Inv(cfg, s, NoFocus) && cfg.Valid() && now == s.clock && Keyed(TableOf(s, ack), keys)
    ensures Sweep(cfg, s, ack, keys, now, o).lastCheck == s.lastCheck
    decreases |keys|
  {
    if keys != [] {
      var m := Expired(TableOf(s, ack)[keys[0]], now);
      ScanKeeps(cfg, s, ack, keys[0], m, now, o);
      ScanFresh(cfg, s, ack, keys[0], m, now, o);
      ScanStamp(cfg, s, ack, keys[0], m, now, o);
      hide Inv, Scan, Fresh;
      var s1 := Scan(cfg, s, ack, keys[0], m, now, o);
      DroppedKeyed(TableOf(s, ack), keys[0], m, keys);
      FreshKeys(Dropped(TableOf(s, ack), keys[0], m), TableOf(s1, ack), keys[1..], now);
      SweepStamp(cfg, s1, ack, keys[1..], now, o);
    }
  }

  lemma FireChildStamp(cfg: Config, s: State, k: real, now: real, o: Oracle)
    requires Inv(cfg, s, NoFocus) && cfg.Valid() && o.Valid() && now == s.clock && k in s.childT && s.childT[k] != []
    ensures FireChild(cfg, s, k, now, o).lastCheck == s.lastCheck
  {
    hide Inv, Rest, Update, KeepsDone, Tells, Books, Fresh, Ready, Put;
    var t, s1 := s.childT[k][0], Forgotten(s, k);
    var s0 := s.(childT := Rest(s.childT, k));
    if Has(s0, t.sid, t.srl) { PutSame(s0, t.sid, t.srl, At(s0, t.sid, t.srl).(extracted := At(s0, t.sid, t.srl).extracted - {t.data})); }
    ForgottenKeeps(cfg, s, k);
    if Has(s, t.sid, t.srl) {
      ForgottenEntry(s, k, t.sid, t.srl);
      InvReady(cfg, s1, Forgetter(s, k), t.sid);
      UpdateMoves(cfg, s1, t.sid, t.srl, now, o);
    }
  }

  lemma {:induction false} ScanChildrenStamp(cfg: Config, s: State, k: real, m: nat, now: real, o: Oracle)
    requires Inv(cfg, s, NoFocus) && cfg.Valid() && o.Valid() && now == s.clock && k in s.childT && m <= |s.childT[k]|
    ensures ScanChildren(cfg, s, k, m, now, o).lastCheck == s.lastCheck
    decreases m
  {
    if m > 0 {
      hide Inv, FireChild, Fresh;
      FireChildKeeps(cfg, s, k, now, o);
      FireChildStamp(cfg, s, k, now, o);
      ScanChildrenStamp(cfg, FireChild(cfg, s, k, now, o), k, m - 1, now, o);
    }
  }

  lemma {:induction false} SweepChildrenStamp(cfg: Config, s: State, keys: seq<real>, now: real, o: Oracle)
    requires Inv(cfg, s, NoFocus) && cfg.Valid() && o.Valid() && now == s.clock && Keyed(s.childT, keys)
    ensures SweepChildren(cfg, s, keys, now, o).lastCheck == s.lastCheck
    decreases |keys|
  {
    if keys != [] {
      hide Inv, ScanChildren, Fresh;
      var m := Expired(s.childT[keys[0]], now);
      ScanChildrenKeeps(cfg, s, keys[0], m, now, o);
      ScanChildrenStamp(cfg, s, keys[0], m, now, o);
      DroppedKeyed(s.childT, keys[0], m, keys);
      SweepChildrenStamp(cfg, ScanChildren(cfg, s, keys[0], m, now, o), keys[1..], now, o);
    }
  }

  /** A pass is made exactly if the last one is long enough ago; it leaves no expired timeout and is
      remembered.  Otherwise nothing happens. */
  lemma CheckSays(cfg: Config, s: State, now: real, o: Oracle)
    requires Inv(cfg, s, NoFocus) && cfg.Valid() && o.Valid() && now == s.clock
    ensures var s' := CheckTimeouts(cfg, s, now, o);
            if now - s.lastCheck < cfg.updateInterval then s' == s
            else
              && s'.lastCheck == now
              && (forall k, i | k in s'.ackT && k >= 0.0 && 0 <= i < |s'.ackT[k]| :: s'.ackT[k][i].time >= now)
              && (forall k, i | k in s'.svcT && k >= 0.0 && 0 <= i < |s'.svcT[k]| :: s'.svcT[k][i].time >= now)
              && (forall k, i | k in s'.childT && k >= 0.0 && 0 <= i < |s'.childT[k]| :: s'.childT[k][i].time >= now)
  {
    hide Inv, Sweep, SweepChildren, Keyed, Goes, Fresh;
    CheckKeeps(cfg, s, now, o);
    if now - s.lastCheck >= cfg.updateInterval {
      var s1, s2, s3, keys1, keys2, keys3 := PassParts(cfg, s, now, o);
      SweepStamp(cfg, s1, true, keys1, now, o);
      SweepStamp(cfg, s2, false, keys2, now, o);
      SweepChildrenStamp(cfg, s3, keys3, now, o);
      var s' := CheckTimeouts(cfg, s, now, o);
      hide CheckTimeouts;
      NothingExpired(s'.ackT, now);
      NothingExpired(s'.svcT, now);
      NothingExpired(s'.childT, now);
    }
  }

  lemma NothingExpired<D(!new)>(t: Table<D>, now: real)
    requires Clean(t, [], now)
    ensures forall k, i | k in t && k >= 0.0 && 0 <= i < |t[k]| :: t[k][i].time >= now
  {
    forall k, i | k in t && k >= 0.0 && 0 <= i < |t[k]| ensures t[k][i].time >= now {
      assert NoneExpired(t[k], now);
    }
  }

  // ---- RemoveEntry of a child ------------------------------------------------------------------

  /** The entry's children are as before. */
  ghost predicate SameKids(e: Entry, e': Entry) {
    e'.outstandingKids == e.outstandingKids && e'.completedKids == e.completedKids
  }

  /** Moving an entry on changes nothing about its children, as long as it stays. */
  lemma UpdateKids(cfg: Config, s: State, sid: Sid, srl: Srl, now: real, o: Oracle)
    requires Ready(cfg, s, sid) && srl in s.entries[sid] && o.Valid()
    ensures var s' := Update(cfg, s, sid, srl, now, o); Has(s', sid, srl) ==> SameKids(At(s, sid, srl), At(s', sid, srl))
  {
    hide Linked, Remove, DispatchAll;
    var e := At(s, sid, srl);
    var stage := NextStage(cfg, e, e.stage);
    if stage == cfg.Done() || e.dispatched[stage] != {} {
      PutAt(s, sid, srl, e.(stage := stage), sid, srl);
      if stage == cfg.Done() && e.outstandingKids == {} && e.extracted == {} {
        ReadyPut(cfg, s, sid, srl, e.(stage := stage));
        RemoveGone(cfg, Put(s, sid, srl, e.(stage := stage)), sid, srl, now, o);
      }
    } else {
      var todo := e.outstanding[stage];
      var e1 := e.(stage := stage, dispatched := e.dispatched[stage := todo], outstanding := e.outstanding[stage := {}]);
      assert Lists(o.order(todo), todo);
      SendKids(cfg, s, sid, srl, e1, o.order(todo), now, o);
    }
  }

  lemma SendKids(cfg: Config, s: State, sid: Sid, srl: Srl, e: Entry, names: seq<Name>, now: real, o: Oracle)
    requires sid in s.entries && sid in s.completed && forall n | n in names :: n in cfg.services
    ensures var s' := DispatchAll(cfg, Put(s, sid, srl, e), sid, srl, names, now, o); Has(s', sid, srl) && SameKids(e, At(s', sid, srl))
  {
    var s1 := Put(s, sid, srl, e);
    PutAt(s, sid, srl, e, sid, srl);
    hide Put, DispatchAll;
    DispatchAllSends(cfg, s1, sid, srl, names, now, o);
    assert Retried(e, At(DispatchAll(cfg, s1, sid, srl, names, now, o), sid, srl));
  }

  /** A removed entry is not held any more. */
  lemma RemoveGone(cfg: Config, s: State, sid: Sid, srl: Srl, now: real, o: Oracle)
    requires Ready(cfg, s, sid) && srl in s.entries[sid] && o.Valid() && At(s, sid, srl).outstandingKids == {}
    ensures !Has(Remove(cfg, s, sid, srl, now, o), sid, srl)
  {
    hide Linked, Remove, Update, Told, Closed, KeepsDone, Tells, Books, Fresh, Shaped;
    var s' := Remove(cfg, s, sid, srl, now, o);
    assert Leaving(s, sid, srl) by { ReadyLeaving(cfg, s, sid, srl); }
    ToldFrame(s, sid, srl);
    if At(s, sid, srl).parent.Some? {
      RemoveChild(cfg, s, sid, srl, now, o);
      UpdateMoves(cfg, Told(s, sid, srl), sid, At(s, sid, srl).parent.value, now, o);
      if Has(s', sid, srl) { DoneHas(Told(s, sid, srl), s', sid, srl); assert false; }
    } else {
      RemoveRoot(cfg, s, sid, srl, now, o);
      if Told(s, sid, srl).entries[sid] == map[] { ClosedFrame(s, sid, srl, Complete(sid, Told(s, sid, srl).score[sid].GetOr(0))); }
    }
  }

  lemma DoneHas(s: State, s': State, sid: Sid, srl: Srl)
    requires KeepsDone(s, s') && Has(s', sid, srl)
    ensures Has(s, sid, srl)
  {}

  lemma ReadyLeaving(cfg: Config, s: State, sid: Sid, srl: Srl)
    requires Ready(cfg, s, sid) && srl in s.entries[sid] && At(s, sid, srl).outstandingKids == {}
    ensures Leaving(s, sid, srl)
  {
    assert Up(s.entries[sid], srl);
  }

  /** A finished child is no longer held; a parent that is still held has it among its completed children
      instead of its outstanding ones. */
  lemma ChildSays(cfg: Config, s: State, sid: Sid, srl: Srl, now: real, o: Oracle)
    requires Ready(cfg, s, sid) && srl in s.entries[sid] && o.Valid()
    requires At(s, sid, srl).outstandingKids == {} && At(s, sid, srl).parent.Some?
    ensures var s', p := Remove(cfg, s, sid, srl, now, o), At(s, sid, srl).parent.value;
            && !Has(s', sid, srl)
            && Has(s, sid, p)
            && (Has(s', sid, p) ==>
                  && At(s', sid, p).outstandingKids == At(s, sid, p).outstandingKids - {srl}
                  && At(s', sid, p).completedKids == At(s, sid, p).completedKids + {srl})
  {
    hide Remove, Update, Told, Shaped;
    var p := At(s, sid, srl).parent.value;
    assert Up(s.entries[sid], srl);
    ReadyLeaving(cfg, s, sid, srl);
    RemoveGone(cfg, s, sid, srl, now, o);
    RemoveChild(cfg, s, sid, srl, now, o);
    UpdateKids(cfg, Told(s, sid, srl), sid, p, now, o);
    ToldEntry(s, sid, srl, sid, p);
  }

  // ---- RemoveEntry of a root -------------------------------------------------------------------

  /** A root that has walked all its stages is completed with its classification; the record of that says
      the best total of the completed files, and, if it was the last file, so does the final record, which
      also has all cache keys and files, and the submission is forgotten. */
  lemma RootSays(cfg: Config, s: State, sid: Sid, srl: Srl, now: real, o: Oracle) returns (best: int)
    requires Inv(cfg, s, Focus(sid, srl, {})) && Ready(cfg, s, sid) && Has(s, sid, srl) && o.Valid()
    requires At(s, sid, srl).outstandingKids == {} && At(s, sid, srl).parent.None?
    ensures var s', e, done := Remove(cfg, s, sid, srl, now, o), At(s, sid, srl), s.completed[sid][srl := At(s, sid, srl).c12n];
            && (exists f :: f in done && Total(s.log[sid], f) == best) && (forall f | f in done :: Total(s.log[sid], f) <= best)
            && (if s.entries[sid].Keys == {srl} then
                  && s'.storage == s.storage + [Complete(sid, best)]
                                   + [Finalize(sid, best, s.results[sid], s.errors[sid], done, srl, e, s.log[sid], s.asked[sid])]
                  && Absent(s', sid)
                else
                  && s'.storage == s.storage + [Complete(sid, best)]
                  && sid in s'.entries && s'.entries[sid].Keys == s.entries[sid].Keys - {srl}
                  && sid in s'.completed && s'.completed[sid] == done)
  {
    assert Slot(cfg, s, sid);
    hide Inv, Remove, Told, Closed, Linked, Shaped, Slot, Keys, Best, LogOk, AskedOk, Total;
    var s1 := Told(s, sid, srl);
    ToldFrame(s, sid, srl);
    ToldBest(cfg, s, sid, srl);
    RemoveRoot(cfg, s, sid, srl, now, o);
    best := s1.score[sid].GetOr(0);
    BestIs(s1.log[sid], s1.completed[sid], s1.score[sid], srl);
    var m := Complete(sid, best);
    LastFile(s.entries[sid], s1.entries[sid], srl);
    hide Leaving, SameAround;
    if s.entries[sid].Keys == {srl} {
      RootCloses(s, sid, srl, best);
    } else {
      TelledStorage(s, sid, srl);
    }
  }

  lemma LastFile(files: map<Srl, Entry>, files': map<Srl, Entry>, srl: Srl)
    requires srl in files && forall x :: x in files' <==> x in files && x != srl
    ensures files'.Keys == files.Keys - {srl} && (files' == map[] <==> files.Keys == {srl})
  {
    if files' == map[] {
      forall x | x in files.Keys ensures x == srl { assert x != srl ==> x in files'; }
    } else {
      var x :| x in files';
      assert x in files.Keys && x != srl;
    }
  }

  lemma TelledStorage(s: State, sid: Sid, srl: Srl)
    requires Leaving(s, sid, srl)
    ensures Told(s, sid, srl).storage == s.storage
  {
    ToldAround(s, sid, srl);
    hide Told;
  }

  lemma RootCloses(s: State, sid: Sid, srl: Srl, best: int)
    requires Leaving(s, sid, srl) && sid in s.results && sid in s.errors && sid in s.log && sid in s.asked
    requires sid in Told(s, sid, srl).score && Told(s, sid, srl).score[sid] == Some(best)
    ensures var s', e, done := Closed(s, sid, srl, Complete(sid, best)), At(s, sid, srl), s.completed[sid][srl := At(s, sid, srl).c12n];
            && s'.storage == s.storage + [Complete(sid, best)]
                               + [Finalize(sid, best, s.results[sid], s.errors[sid], done, srl, e, s.log[sid], s.asked[sid])]
            && Absent(s', sid)
  {
    hide Told;
    ToldFrame(s, sid, srl);
    ClosedStorage(s, sid, srl, Complete(sid, best));
    ClosedFrame(s, sid, srl, Complete(sid, best));
    hide Closed;
  }

  lemma BestIs(log: seq<Finished>, done: map<Srl, C12n>, best: Option<int>, srl: Srl)
    requires Best(log, done, best) && srl in done
    ensures best.Some? && (exists f :: f in done && Total(log, f) == best.value) && forall f | f in done :: Total(log, f) <= best.value
  {}
}
