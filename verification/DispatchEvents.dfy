/** The dispatcher's message handlers, and that each keeps the invariant. */
module DispatchEvents {
  import opened Prelude
  import opened DispatchModel
  import opened DispatchInvariant
  import opened DispatchSend
  import opened DispatchUpdate

  // ---- More timeouts -------------------------------------------------------------------------

  lemma SvcArmed(cfg: Config, s: State, f: Focus, seconds: real, x: Timeout<Name>)
    requires Inv(cfg, s, f) && x.time == s.clock + seconds && x.data in cfg.services
    ensures Inv(cfg, s.(svcT := Arm(s.svcT, seconds, x)), f)
  {
    var s' := s.(svcT := Arm(s.svcT, seconds, x));
    ArmArms(s.svcT, seconds, x);
    ArmTimely(s.svcT, seconds, x, s.clock);
    hide SubAll, HeldAll, SendsOk, Balanced, Timely, ArmsMore;
    assert ArmsMore(s.ackT, s'.ackT) && ArmsMore(s.childT, s'.childT) by { SameArms(s.ackT); SameArms(s.childT); }
    SendsKeep(cfg, s, s', f);
    FewerSends(cfg, s, s');
  }

  lemma ChildArmed(cfg: Config, s: State, f: Focus, seconds: real, x: Timeout<Srl>)
    requires Inv(cfg, s, f) && x.time == s.clock + seconds
    ensures Inv(cfg, s.(childT := Arm(s.childT, seconds, x)), f)
  {
    var s' := s.(childT := Arm(s.childT, seconds, x));
    ArmArms(s.childT, seconds, x);
    ArmTimely(s.childT, seconds, x, s.clock);
    hide SubAll, HeldAll, SendsOk, Balanced, Timely, ArmsMore;
    assert ArmsMore(s.ackT, s'.ackT) && ArmsMore(s.svcT, s'.svcT) by { SameArms(s.ackT); SameArms(s.svcT); }
    SendsKeep(cfg, s, s', f);
    FewerSends(cfg, s, s');
  }

  lemma SameArms<D(!new)>(t: Table<D>)
    ensures ArmsMore(t, t)
  {}

  // ---- acknowledged --------------------------------------------------------------------------

  /** A service that is dispatched is at its own stage, which is the entry's. */
  lemma WaitingStage(cfg: Config, e: Entry, n: Name, st: nat)
    requires EntryOk(cfg, e) && st <= cfg.Done() && (n in e.dispatched[st] || n in e.acked[st])
    ensures n in cfg.services && cfg.services[n].stage == st == e.stage
    ensures n !in e.completed[st] && n !in e.outstanding[st] && !(n in e.dispatched[st] && n in e.acked[st])
    ensures e.dropAt.Some? ==> st <= e.dropAt.value
  {
    assert StageOk(cfg, e, st);
    assert n in Chosen(cfg, e.selected, st);
  }

  lemma AckedOk(cfg: Config, e: Entry, n: Name, st: nat)
    requires EntryOk(cfg, e) && st <= cfg.Done() && n in e.dispatched[st]
    ensures EntryOk(cfg, e.(dispatched := e.dispatched[st := e.dispatched[st] - {n}], acked := e.acked[st := e.acked[st] + {n}]))
  {
    var e1 := e.(dispatched := e.dispatched[st := e.dispatched[st] - {n}], acked := e.acked[st := e.acked[st] + {n}]);
    forall st1 | 0 <= st1 <= cfg.Done() ensures StageOk(cfg, e1, st1) { assert StageOk(cfg, e, st1); }
  }

  lemma InvSlot(cfg: Config, s: State, f: Focus, sid: Sid)
    requires Inv(cfg, s, f)
    ensures sid in s.entries <==> sid in s.completed
  {
    assert Slot(cfg, s, sid);
  }

  lemma HeldFacts(cfg: Config, s: State, f: Focus, sid: Sid, srl: Srl)
    requires Inv(cfg, s, f) && Has(s, sid, srl)
    ensures HeldOk(cfg, s, sid, srl, At(s, sid, srl), f)
  {}

  lemma AcknowledgedKeeps(cfg: Config, s: State, sid: Sid, srl: Srl, name: Name, seconds: real, now: real)
    requires Inv(cfg, s, NoFocus) && cfg.Valid() && now == s.clock
    ensures sid in s.entries ==> Ready(cfg, s, sid)
    ensures Inv(cfg, Acknowledged(cfg, s, sid, srl, name, seconds, now), NoFocus)
  {
    hide Inv, Covered;
    if sid in s.entries { InvReady(cfg, s, NoFocus, sid); }
    if Has(s, sid, srl) && name in cfg.services {
      var e := At(s, sid, srl);
      var st := cfg.services[name].stage;
      HeldFacts(cfg, s, NoFocus, sid, srl);
      if name in e.dispatched[st] {
        var x := Timeout(sid, srl, name, now + seconds);
        SvcArmed(cfg, s, NoFocus, seconds, x);
        ArmArms(s.svcT, seconds, x);
        AckMoved(cfg, s, s.(svcT := Arm(s.svcT, seconds, x)), sid, srl, name, st);
      }
    }
  }

  lemma AckMoved(cfg: Config, s: State, s1: State, sid: Sid, srl: Srl, n: Name, st: nat)
    requires Has(s, sid, srl) && HeldOk(cfg, s, sid, srl, At(s, sid, srl), NoFocus)
    requires st <= cfg.Done() && n in At(s, sid, srl).dispatched[st]
    requires s1 == s.(svcT := s1.svcT) && ArmsMore(s.svcT, s1.svcT) && Armed(s1.svcT, sid, srl, n)
    requires Inv(cfg, s1, NoFocus)
    ensures var e := At(s, sid, srl);
            var e1 := e.(dispatched := e.dispatched[st := e.dispatched[st] - {n}], acked := e.acked[st := e.acked[st] + {n}]);
            Inv(cfg, Put(s1, sid, srl, e1), NoFocus)
  {
    hide Inv;
    var e := At(s, sid, srl);
    var e1 := e.(dispatched := e.dispatched[st := e.dispatched[st] - {n}], acked := e.acked[st := e.acked[st] + {n}]);
    AckedOk(cfg, e, n, st);
    WaitingStage(cfg, e, n, st);
    AckCovered(s, s1, sid, srl, e, e1, n, st);
    hide EntryOk, Covered;
    MovedKeeps(cfg, s1, NoFocus, NoFocus, sid, srl, e1);
  }

  lemma AckCovered(s: State, s1: State, sid: Sid, srl: Srl, e: Entry, e1: Entry, n: Name, st: nat)
    requires Covered(s, sid, srl, e, {}) && st < |e.dispatched| && st < |e.acked|
    requires e1 == e.(dispatched := e.dispatched[st := e.dispatched[st] - {n}], acked := e.acked[st := e.acked[st] + {n}])
    requires s1 == s.(svcT := s1.svcT) && ArmsMore(s.svcT, s1.svcT) && Armed(s1.svcT, sid, srl, n)
    ensures Covered(s1, sid, srl, e1, {})
  {
    hide Armed;
  }

  // ---- serviced ------------------------------------------------------------------------------

  lemma TotalAppend(log: seq<Finished>, r: Finished, srl: Srl)
    ensures Total(log + [r], srl) == Total(log, srl) + if r.srl == srl && r.ok then r.score else 0
  {
    assert (log + [r])[..|log|] == log;
  }

  lemma KeysAppend(log: seq<Finished>, r: Finished, ok: bool)
    ensures Keys(log + [r], ok) == Keys(log, ok) + if r.ok == ok && r.key.Some? then [r.key.value] else []
  {
    assert (log + [r])[..|log|] == log;
  }

  lemma LoggedAppend(log: seq<Finished>, r: Finished, srl: Srl, n: Name)
    ensures Logged(log + [r], srl, n) <==> Logged(log, srl, n) || (r.srl == srl && r.name == n)
  {
    var log' := log + [r];
    if Logged(log, srl, n) {
      var i :| 0 <= i < |log| && log[i].srl == srl && log[i].name == n;
      assert log'[i] == log[i];
    }
    if r.srl == srl && r.name == n { assert log'[|log|] == r; }
  }

  lemma BestAppend(log: seq<Finished>, r: Finished, done: map<Srl, C12n>, best: Option<int>)
    requires Best(log, done, best) && r.srl !in done
    ensures Best(log + [r], done, best)
  {
    hide Total;
    forall f ensures f in done ==> Total(log + [r], f) == Total(log, f) { TotalAppend(log, r, f); }
    if best.Some? {
      var f :| f in done && Total(log, f) == best.value;
      assert Total(log + [r], f) == best.value;
    }
  }

  /** The entry after an awaited service has answered. */
  lemma AnsweredOk(cfg: Config, e: Entry, m: Response, st: nat)
    requires EntryOk(cfg, e) && Shaped(cfg, e) && st <= cfg.Done() && (m.name in e.dispatched[st] || m.name in e.acked[st])
    ensures EntryOk(cfg, Answered(cfg, e, m, st))
  {
    var e1 := Answered(cfg, e, m, st);
    WaitingStage(cfg, e, m.name, st);
    forall st1 | 0 <= st1 <= cfg.Done() ensures StageOk(cfg, e1, st1) { assert StageOk(cfg, e, st1); }
  }

  lemma AnsweredFinishes(cfg: Config, e: Entry, m: Response, st: nat, n: Name)
    requires EntryOk(cfg, e) && Shaped(cfg, e) && m.name in cfg.services && cfg.services[m.name].stage == st <= cfg.Done()
    ensures Finishes(cfg, Answered(cfg, e, m, st), n) <==> Finishes(cfg, e, n) || n == m.name
  {}

  lemma AnsweredCovered(cfg: Config, s: State, sid: Sid, srl: Srl, e: Entry, m: Response, st: nat)
    requires EntryOk(cfg, e) && Shaped(cfg, e) && st <= cfg.Done() && Covered(s, sid, srl, e, {})
    ensures Covered(s, sid, srl, Answered(cfg, e, m, st), {})
  {
    hide Armed;
    var e1 := Answered(cfg, e, m, st);
    assert forall st1 | 0 <= st1 < |e1.dispatched| :: e1.dispatched[st1] <= e.dispatched[st1];
    assert forall st1 | 0 <= st1 < |e1.acked| :: e1.acked[st1] <= e.acked[st1];
  }

  /** The entry waits for the service that answers. */
  ghost predicate Answers(cfg: Config, s: State, m: Response) {
    && cfg.Valid() && SubOk(cfg, s, m.sid) && m.srl in s.entries[m.sid]
    && EntryOk(cfg, At(s, m.sid, m.srl)) && Shaped(cfg, At(s, m.sid, m.srl)) && Waits(cfg, At(s, m.sid, m.srl), m.name)
  }

  lemma NotLogged(cfg: Config, s: State, m: Response)
    requires Answers(cfg, s, m)
    ensures !Logged(s.log[m.sid], m.srl, m.name)
  {
    var e := At(s, m.sid, m.srl);
    WaitingStage(cfg, e, m.name, cfg.services[m.name].stage);
    hide AskedOk, Best, Linked, Keys, Total, EntryOk, Logged, Shaped, Once;
    assert Logged(s.log[m.sid], m.srl, m.name) <==> Finishes(cfg, e, m.name);
  }

  lemma RecordedFrame(cfg: Config, s: State, m: Response)
    requires Answers(cfg, s, m)
    ensures var r := Recorded(cfg, s, m);
            && m.sid in r.entries && r.completed == s.completed && r.asked == s.asked && r.score == s.score
            && r.log == s.log[m.sid := s.log[m.sid] + [FinishedBy(m)]]
            && r.results == AddKey(s.results, m.sid, m.key, m.status.Ok?) && r.errors == AddKey(s.errors, m.sid, m.key, !m.status.Ok?)
            && r.entries[m.sid].Keys == s.entries[m.sid].Keys
  {
    hide LogOk, Put, AskedOk, Best, Linked, Keys, EntryOk, Shaped, Answered;
    var e := Answered(cfg, At(s, m.sid, m.srl), m, cfg.services[m.name].stage);
    PutSame(s, m.sid, m.srl, e);
    PutKeys(s, m.sid, m.srl, e);
  }

  lemma PutKeys(s: State, sid: Sid, srl: Srl, e: Entry)
    requires Has(s, sid, srl)
    ensures Put(s, sid, srl, e).entries[sid].Keys == s.entries[sid].Keys
  {}

  lemma RecordedEntry(cfg: Config, s: State, m: Response, sid: Sid, srl: Srl)
    requires Answers(cfg, s, m)
    ensures var r := Recorded(cfg, s, m);
            && (Has(r, sid, srl) <==> Has(s, sid, srl))
            && (Has(r, sid, srl) ==>
                  At(r, sid, srl) == if sid == m.sid && srl == m.srl
                                     then Answered(cfg, At(s, sid, srl), m, cfg.services[m.name].stage) else At(s, sid, srl))
  {
    var e := Answered(cfg, At(s, m.sid, m.srl), m, cfg.services[m.name].stage);
    var r := Recorded(cfg, s, m);
    hide AskedOk, EntryOk, Shaped, Answered, Put, LogOk, Linked, Best, Keys;
    assert r.entries == Put(s, m.sid, m.srl, e).entries;
    PutAt(s, m.sid, m.srl, e, sid, srl);
  }

  lemma RecordedLogged(cfg: Config, s: State, m: Response, srl: Srl, n: Name)
    requires Answers(cfg, s, m) && srl in s.entries[m.sid]
    ensures Has(Recorded(cfg, s, m), m.sid, srl) && m.sid in Recorded(cfg, s, m).log
    ensures Logged(Recorded(cfg, s, m).log[m.sid], srl, n) <==> Finishes(cfg, At(Recorded(cfg, s, m), m.sid, srl), n)
  {
    RecordedFrame(cfg, s, m);
    RecordedEntry(cfg, s, m, m.sid, srl);
    hide AskedOk, Best, Linked, Keys, Total, EntryOk, Shaped, Once, Recorded, Answered, Logged, Finishes;
    assert Has(s, m.sid, srl);
    LoggedAppend(s.log[m.sid], FinishedBy(m), srl, n);
    AnsweredFinishes(cfg, At(s, m.sid, m.srl), m, cfg.services[m.name].stage, n);
    assert Logged(s.log[m.sid], srl, n) <==> Finishes(cfg, s.entries[m.sid][srl], n);
  }

  lemma RecordedScore(cfg: Config, s: State, m: Response, srl: Srl)
    requires Answers(cfg, s, m) && srl in s.entries[m.sid]
    ensures Has(Recorded(cfg, s, m), m.sid, srl) && m.sid in Recorded(cfg, s, m).log
    ensures At(Recorded(cfg, s, m), m.sid, srl).score == Total(Recorded(cfg, s, m).log[m.sid], srl)
  {
    RecordedFrame(cfg, s, m);
    RecordedEntry(cfg, s, m, m.sid, srl);
    hide AskedOk, Best, Linked, Keys, Total, EntryOk, Shaped, Once, Recorded, Answered, Logged, Finishes;
    assert Has(s, m.sid, srl);
    TotalAppend(s.log[m.sid], FinishedBy(m), srl);
    AnsweredScore(cfg, At(s, m.sid, m.srl), m, cfg.services[m.name].stage);
    assert s.entries[m.sid][srl].score == Total(s.log[m.sid], srl);
  }

  lemma RecordedLog(cfg: Config, s: State, m: Response)
    requires Answers(cfg, s, m)
    ensures LogOk(cfg, Recorded(cfg, s, m), m.sid)
  {
    var s' := Recorded(cfg, s, m);
    RecordedFrame(cfg, s, m);
    hide AskedOk, Best, Linked, Keys, Total, EntryOk, Shaped, Once, Recorded, Answered, Logged, Finishes;
    NotLogged(cfg, s, m);
    RecordedOnce(s.log[m.sid], FinishedBy(m));
    forall srl, n | srl in s'.entries[m.sid] ensures Logged(s'.log[m.sid], srl, n) <==> Finishes(cfg, s'.entries[m.sid][srl], n) {
      RecordedLogged(cfg, s, m, srl, n);
    }
    forall srl | srl in s'.entries[m.sid] ensures s'.entries[m.sid][srl].score == Total(s'.log[m.sid], srl) {
      RecordedScore(cfg, s, m, srl);
    }
  }

  lemma AnsweredScore(cfg: Config, e: Entry, m: Response, st: nat)
    requires Shaped(cfg, e) && st <= cfg.Done()
    ensures Answered(cfg, e, m, st).score == e.score + if m.status.Ok? then m.score else 0
  {}

  lemma RecordedOnce(log: seq<Finished>, r: Finished)
    requires Once(log) && !Logged(log, r.srl, r.name)
    ensures Once(log + [r])
  {}

  // ---- The record of what was asked ------------------------------------------------------------

  lemma SaidAppend(cfg: Config, log: seq<Finished>, r: Finished, srl: Srl, st: nat)
    ensures SaidDrop(cfg, log + [r], srl, st) <==> SaidDrop(cfg, log, srl, st) || AsksDrop(cfg, r, srl, st)
  {
    var log' := log + [r];
    if SaidDrop(cfg, log, srl, st) {
      var i :| 0 <= i < |log| && AsksDrop(cfg, log[i], srl, st);
      assert log'[i] == log[i];
    }
    if AsksDrop(cfg, r, srl, st) { assert log'[|log|] == r; }
  }

  /** A completion of another file changes nothing about this one. */
  lemma ServedAppend(cfg: Config, log: seq<Finished>, r: Finished, srl: Srl, m: Submission)
    requires r.srl != srl && Served(cfg, log, srl, m)
    ensures Served(cfg, log + [r], srl, m)
  {
    hide Logged, SaidDrop;
    forall st ensures SaidDrop(cfg, log + [r], srl, st) == SaidDrop(cfg, log, srl, st) { SaidAppend(cfg, log, r, srl, st); }
    forall st: nat ensures DroppedBefore(cfg, log + [r], srl, st) == DroppedBefore(cfg, log, srl, st) {}
    hide DroppedBefore;
    forall n ensures Logged(log + [r], srl, n) <==> n in m.select && n in cfg.services && !DroppedBefore(cfg, log + [r], srl, cfg.services[n].stage) {
      LoggedAppend(log, r, srl, n);
    }
  }

  lemma AskedAppend(cfg: Config, log: seq<Finished>, r: Finished, srl: Srl, e: Entry, m: Submission)
    requires r.srl != srl && AsAsked(cfg, log, srl, e, m)
    ensures AsAsked(cfg, log + [r], srl, e, m)
  {
    hide SaidDrop;
    forall st: nat ensures SaidDrop(cfg, log + [r], srl, st) <==> e.dropAt == Some(st) { SaidAppend(cfg, log, r, srl, st); }
  }

  /** An answer that asks for a drop sets it, and no other answer does. */
  lemma AnsweredAsked(cfg: Config, log: seq<Finished>, e: Entry, m: Response, asked: Submission)
    requires EntryOk(cfg, e) && Shaped(cfg, e) && Waits(cfg, e, m.name) && AsAsked(cfg, log, m.srl, e, asked)
    ensures AsAsked(cfg, log + [FinishedBy(m)], m.srl, Answered(cfg, e, m, cfg.services[m.name].stage), asked)
  {
    var st := cfg.services[m.name].stage;
    var e1 := Answered(cfg, e, m, st);
    WaitingStage(cfg, e, m.name, st);
    hide SaidDrop, StageOk;
    forall d: nat ensures SaidDrop(cfg, log + [FinishedBy(m)], m.srl, d) <==> e1.dropAt == Some(d) {
      SaidAppend(cfg, log, FinishedBy(m), m.srl, d);
    }
  }

  lemma RecordedAsked(cfg: Config, s: State, m: Response)
    requires Answers(cfg, s, m)
    ensures AskedOk(cfg, Recorded(cfg, s, m), m.sid)
  {
    RecordedFrame(cfg, s, m);
    hide LogOk, Best, Linked, Keys, EntryOk, Shaped, AsAsked, Served, Recorded;
    var s', log, r := Recorded(cfg, s, m), s.log[m.sid], FinishedBy(m);
    forall srl | srl in s'.entries[m.sid] && srl in s.asked[m.sid]
      ensures AsAsked(cfg, log + [r], srl, s'.entries[m.sid][srl], s.asked[m.sid][srl])
    {
      RecordedEntry(cfg, s, m, m.sid, srl);
      assert Has(s', m.sid, srl) && AsAsked(cfg, log, srl, s.entries[m.sid][srl], s.asked[m.sid][srl]);
      if srl == m.srl {
        AnsweredAsked(cfg, log, At(s, m.sid, srl), m, s.asked[m.sid][srl]);
      } else {
        AskedAppend(cfg, log, r, srl, At(s, m.sid, srl), s.asked[m.sid][srl]);
      }
    }
    forall srl | srl in s'.completed[m.sid] && srl in s.asked[m.sid] ensures Served(cfg, log + [r], srl, s.asked[m.sid][srl]) {
      ServedAppend(cfg, log, r, srl, s.asked[m.sid][srl]);
    }
  }

  lemma RecordedSub(cfg: Config, s: State, m: Response)
    requires Answers(cfg, s, m)
    ensures SubOk(cfg, Recorded(cfg, s, m), m.sid)
  {
    var s' := Recorded(cfg, s, m);
    RecordedLog(cfg, s, m);
    var log, r := s.log[m.sid], FinishedBy(m);
    RecordedLinks(cfg, s, m);
    RecordedAsked(cfg, s, m);
    RecordedFrame(cfg, s, m);
    hide Best, Linked, Keys, LogOk, AskedOk, EntryOk, Shaped, Answered, Recorded;
    BestAppend(log, r, s.completed[m.sid], s.score[m.sid]);
    KeysAppend(log, r, true);
    KeysAppend(log, r, false);
  }

  lemma RecordedLinks(cfg: Config, s: State, m: Response)
    requires Answers(cfg, s, m)
    ensures var files := Recorded(cfg, s, m).entries[m.sid];
            && Linked(files) && files != map[] && files.Keys == s.entries[m.sid].Keys
            && forall srl | srl in files :: files[srl].completedKids == s.entries[m.sid][srl].completedKids
  {
    hide AskedOk, Best, Linked, Keys, LogOk, EntryOk, Shaped;
    LinkedAlike(s.entries[m.sid], Recorded(cfg, s, m).entries[m.sid]);
    assert m.srl in Recorded(cfg, s, m).entries[m.sid];
  }

  /** What recording a reply leaves alone: other submissions, other files, the timeouts. */
  lemma RecordedOther(cfg: Config, s: State, m: Response, sid: Sid)
    requires Answers(cfg, s, m) && sid != m.sid
    ensures SameOn(s, Recorded(cfg, s, m), sid)
  {
    hide SubOk, EntryOk, Shaped, Waits, Answered;
  }

  lemma RecordedTables(cfg: Config, s: State, m: Response)
    requires Answers(cfg, s, m)
    ensures var r := Recorded(cfg, s, m);
            r.ackT == s.ackT && r.svcT == s.svcT && r.childT == s.childT && r.pending == s.pending && m.sid in r.entries
  {
    hide SubOk, EntryOk, Shaped, Waits, Answered;
  }

  lemma AnsweredHeld(cfg: Config, s: State, r: State, m: Response, e: Entry, st: nat)
    requires HeldOk(cfg, s, m.sid, m.srl, e, NoFocus) && Shaped(cfg, e) && st <= cfg.Done()
    requires m.name in e.dispatched[st] || m.name in e.acked[st]
    requires r.ackT == s.ackT && r.svcT == s.svcT && r.childT == s.childT && r.pending == s.pending
    ensures HeldOk(cfg, r, m.sid, m.srl, Answered(cfg, e, m, st), Focus(m.sid, m.srl, {}))
  {
    AnsweredOk(cfg, e, m, st);
    AnsweredCovered(cfg, s, m.sid, m.srl, e, m, st);
    hide EntryOk, Armed, Shaped, Answered;
  }

  lemma RecordedHeld(cfg: Config, s: State, m: Response)
    requires Answers(cfg, s, m) && HeldAll(cfg, s, NoFocus)
    ensures HeldAll(cfg, Recorded(cfg, s, m), Focus(m.sid, m.srl, {}))
  {
    hide AskedOk, EntryOk, Armed, Shaped, Answered, Recorded, Settled, Covered, LogOk, Linked, Best, Keys;
    var s' := Recorded(cfg, s, m);
    var f := Focus(m.sid, m.srl, {});
    RecordedTables(cfg, s, m);
    forall sid, srl | Has(s', sid, srl) ensures HeldOk(cfg, s', sid, srl, At(s', sid, srl), f) {
      RecordedEntry(cfg, s, m, sid, srl);
      assert HeldOk(cfg, s, sid, srl, At(s, sid, srl), NoFocus);
      if sid == m.sid && srl == m.srl {
        AnsweredHeld(cfg, s, s', m, At(s, sid, srl), cfg.services[m.name].stage);
      } else {
        ElsewhereHeld(cfg, s, s', sid, srl, At(s, sid, srl), f);
      }
    }
  }

  lemma ElsewhereHeld(cfg: Config, s: State, r: State, sid: Sid, srl: Srl, e: Entry, f: Focus)
    requires HeldOk(cfg, s, sid, srl, e, NoFocus) && !f.On(sid, srl)
    requires r.ackT == s.ackT && r.svcT == s.svcT && r.childT == s.childT && r.pending == s.pending
    ensures HeldOk(cfg, r, sid, srl, e, f)
  {
    hide EntryOk, Armed;
  }

  lemma AnsweredSame(cfg: Config, e: Entry, m: Response, st: nat)
    requires Shaped(cfg, e) && st <= cfg.Done()
    ensures var e1 := Answered(cfg, e, m, st); e1.born == e.born && e1.retries == e.retries
  {}

  lemma RecordedSends(cfg: Config, s: State, m: Response)
    requires Answers(cfg, s, m) && SendsOk(cfg, s)
    ensures SendsOk(cfg, Recorded(cfg, s, m))
  {
    hide SendsOk, AskedOk, EntryOk, LogOk, Linked, Best, Keys, Answered;
    AnsweredSame(cfg, At(s, m.sid, m.srl), m, cfg.services[m.name].stage);
    FewerSends(cfg, s, Recorded(cfg, s, m));
  }

  lemma RecordedSubAll(cfg: Config, s: State, m: Response)
    requires Answers(cfg, s, m) && SubAll(cfg, s)
    ensures SubAll(cfg, Recorded(cfg, s, m))
  {
    var s' := Recorded(cfg, s, m);
    hide SubOk, EntryOk, Shaped, Waits, Answered, Recorded, SameOn;
    RecordedSub(cfg, s, m);
    RecordedTables(cfg, s, m);
    forall sid ensures Slot(cfg, s', sid) {
      assert Slot(cfg, s, sid);
      if sid != m.sid {
        RecordedOther(cfg, s, m, sid);
        SlotElsewhere(cfg, s, s', sid);
      }
    }
  }

  lemma RecordedRest(cfg: Config, s: State, m: Response)
    requires Answers(cfg, s, m) && TablesOk(cfg, s) && Balanced(cfg, s)
    ensures TablesOk(cfg, Recorded(cfg, s, m)) && Balanced(cfg, Recorded(cfg, s, m))
  {
    hide AskedOk, LogOk, Linked, Best, Keys, EntryOk, Shaped, Answered, Timely, Known, Balanced;
    SameBalance(cfg, s, Recorded(cfg, s, m));
  }

  lemma RecordedKeeps(cfg: Config, s: State, m: Response)
    requires Answers(cfg, s, m) && Inv(cfg, s, NoFocus)
    ensures Inv(cfg, Recorded(cfg, s, m), Focus(m.sid, m.srl, {}))
    ensures Has(Recorded(cfg, s, m), m.sid, m.srl) && Recorded(cfg, s, m).clock == s.clock
  {
    hide SubAll, HeldAll, SendsOk, TablesOk, Balanced, SubOk, EntryOk, Shaped, Waits, Answered;
    RecordedSubAll(cfg, s, m);
    RecordedHeld(cfg, s, m);
    RecordedSends(cfg, s, m);
    RecordedRest(cfg, s, m);
  }

  // ---- Announced children --------------------------------------------------------------------

  lemma AnnouncedOk(cfg: Config, e: Entry, xs: set<Srl>)
    requires EntryOk(cfg, e)
    ensures EntryOk(cfg, e.(extracted := xs))
  {
    forall st | 0 <= st <= cfg.Done() ensures StageOk(cfg, e.(extracted := xs), st) { assert StageOk(cfg, e, st); }
  }

  /** Noting one announced child. */
  lemma AnnounceOne(cfg: Config, s: State, sid: Sid, srl: Srl, kid: Srl)
    requires Inv(cfg, s, Focus(sid, srl, {})) && Has(s, sid, srl)
    ensures var e := At(s, sid, srl);
            var s' := Put(s, sid, srl, e.(extracted := e.extracted + {kid}))
                      .(childT := Arm(s.childT, cfg.childSeconds, Timeout(sid, srl, kid, s.clock + cfg.childSeconds)));
            Inv(cfg, s', Focus(sid, srl, {}))
  {
    var f := Focus(sid, srl, {});
    var e := At(s, sid, srl);
    var x := Timeout(sid, srl, kid, s.clock + cfg.childSeconds);
    var s1 := s.(childT := Arm(s.childT, cfg.childSeconds, x));
    hide SubAll, HeldAll, SendsOk, TablesOk, Balanced, EntryOk, Armed;
    FocusFacts(cfg, s, sid, srl);
    ChildArmed(cfg, s, f, cfg.childSeconds, x);
    ArmArms(s.childT, cfg.childSeconds, x);
    AnnouncedOk(cfg, e, e.extracted + {kid});
    MovedKeeps(cfg, s1, f, f, sid, srl, e.(extracted := e.extracted + {kid}));
  }

  lemma {:induction false} AnnounceKeeps(cfg: Config, s: State, sid: Sid, srl: Srl, kids: seq<Srl>)
    requires Inv(cfg, s, Focus(sid, srl, {})) && Has(s, sid, srl) && sid in s.completed
    ensures var s' := Announce(cfg, s, sid, srl, kids, s.clock);
            Inv(cfg, s', Focus(sid, srl, {})) && Has(s', sid, srl) && s'.clock == s.clock
    decreases |kids|
  {
    hide Inv;
    if kids != [] {
      var e := At(s, sid, srl);
      var kid := kids[0];
      if kid in e.outstandingKids || kid in e.completedKids || kid in s.completed[sid] || kid in s.entries[sid] {
        AnnounceKeeps(cfg, s, sid, srl, kids[1..]);
      } else {
        AnnounceOne(cfg, s, sid, srl, kid);
        var s1 := Put(s, sid, srl, e.(extracted := e.extracted + {kid}))
                  .(childT := Arm(s.childT, cfg.childSeconds, Timeout(sid, srl, kid, s.clock + cfg.childSeconds)));
        AnnounceKeeps(cfg, s1, sid, srl, kids[1..]);
      }
    }
  }

  lemma CreditKeeps(cfg: Config, s: State, m: Response, now: real)
    requires Inv(cfg, s, NoFocus) && cfg.Valid() && now == s.clock && Has(s, m.sid, m.srl)
    requires EntryOk(cfg, At(s, m.sid, m.srl)) && Waits(cfg, At(s, m.sid, m.srl), m.name)
    ensures Ready(cfg, s, m.sid)
    ensures var s' := Credit(cfg, s, m, now);
            Inv(cfg, s', Focus(m.sid, m.srl, {})) && Has(s', m.sid, m.srl) && s'.clock == now
  {
    InvReady(cfg, s, NoFocus, m.sid);
    assert Answers(cfg, s, m) by { assert Slot(cfg, s, m.sid); }
    hide Inv, EntryOk, Waits, SubOk;
    RecordedKeeps(cfg, s, m);
    if m.status.Ok? { AnnounceKeeps(cfg, Recorded(cfg, s, m), m.sid, m.srl, m.extracted); }
  }

  // ---- The handler ---------------------------------------------------------------------------

  lemma DequeuedKeeps(cfg: Config, s: State, f: Focus, name: Name)
    requires Inv(cfg, s, f)
    ensures Inv(cfg, Dequeued(s, name), f)
  {
    var s' := Dequeued(s, name);
    hide SubAll, HeldAll, SendsOk, TablesOk, Balanced;
    SameQueues(cfg, s, s', f);
  }

  lemma SameQueues(cfg: Config, s: State, s': State, f: Focus)
    requires Inv(cfg, s, f) && s' == s.(queueSize := s'.queueSize)
    ensures Inv(cfg, s', f)
  {
    hide SubAll, HeldAll, SendsOk, Balanced, Timely, Known;
    SendsKeep(cfg, s, s', f);
    FewerSends(cfg, s, s');
  }

  /** What an awaited answer leads to: nothing if it was sent to another dispatcher, another request
      after a recoverable failure, else it is recorded and the entry moved on. */
  function Responded(cfg: Config, s: State, m: Response, now: real, o: Oracle): State
    requires Inv(cfg, s, NoFocus) && cfg.Valid() && o.Valid() && now == s.clock
    requires m.sid in s.entries ==> Ready(cfg, s, m.sid)
    requires Awaited(cfg, s, m.sid, m.srl, m.name)
  {
    if !m.queueOk then s
    else if m.status.FailRecoverable? && Resend(cfg, s, false, m.sid, m.srl, m.name) then
      Dispatch(cfg, s, m.sid, m.srl, m.name, now, o)
    else
      assert EntryOk(cfg, At(s, m.sid, m.srl)) && Waits(cfg, At(s, m.sid, m.srl), m.name) by { HeldFacts(cfg, s, NoFocus, m.sid, m.srl); }
      var s2 := Credit(cfg, s, m, now);
      assert Ready(cfg, s2, m.sid) && Has(s2, m.sid, m.srl) by { CreditKeeps(cfg, s, m, now); InvReady(cfg, s2, Focus(m.sid, m.srl, {}), m.sid); }
      Update(cfg, s2, m.sid, m.srl, now, o)
  }

  lemma RespondedKeeps(cfg: Config, s: State, m: Response, now: real, o: Oracle)
    requires Inv(cfg, s, NoFocus) && cfg.Valid() && o.Valid() && now == s.clock
    requires m.sid in s.entries ==> Ready(cfg, s, m.sid)
    requires Awaited(cfg, s, m.sid, m.srl, m.name)
    ensures Inv(cfg, Responded(cfg, s, m, now, o), NoFocus)
  {
    hide Inv, Covered, Linked, Shaped, Credit, Update;
    HeldFacts(cfg, s, NoFocus, m.sid, m.srl);
    if m.queueOk {
      if m.status.FailRecoverable? && Resend(cfg, s, false, m.sid, m.srl, m.name) {
        DispatchKeeps(cfg, s, NoFocus, m.sid, m.srl, m.name, now, o);
      } else {
        CreditKeeps(cfg, s, m, now);
        UpdateKeeps(cfg, Credit(cfg, s, m, now), m.sid, m.srl, now, o);
      }
    }
  }

  /** An answer that is awaited is awaited still once it is off the queue. */
  lemma StillAwaited(cfg: Config, s: State, m: Response)
    requires Inv(cfg, s, NoFocus) && cfg.Valid() && m.sid in s.entries && Ready(cfg, s, m.sid)
    ensures var s1 := Dequeued(s, m.name);
            && Inv(cfg, s1, NoFocus) && s1.clock == s.clock && s1.entries == s.entries && Ready(cfg, s1, m.sid)
            && (Awaited(cfg, s1, m.sid, m.srl, m.name) <==> Awaited(cfg, s, m.sid, m.srl, m.name))
  {
    hide Inv, Linked, Shaped;
    DequeuedKeeps(cfg, s, NoFocus, m.name);
    InvReady(cfg, Dequeued(s, m.name), NoFocus, m.sid);
  }

  lemma InvReadyIf(cfg: Config, s: State, sid: Sid)
    requires Inv(cfg, s, NoFocus)
    ensures sid in s.entries ==> Ready(cfg, s, sid)
  {
    hide Inv, Ready;
    if sid in s.entries { InvReady(cfg, s, NoFocus, sid); }
  }

  /** serviced: a service has answered. */
  function Serviced(cfg: Config, s: State, m: Response, now: real, o: Oracle): State
    requires Inv(cfg, s, NoFocus) && cfg.Valid() && o.Valid() && now == s.clock
  {
    InvReadyIf(cfg, s, m.sid);
    if !Awaited(cfg, s, m.sid, m.srl, m.name) then s
    else
      StillAwaited(cfg, s, m);
      Responded(cfg, Dequeued(s, m.name), m, now, o)
  }

  /** The two cases of serviced, with what the second one needs. */
  lemma ServicedIs(cfg: Config, s: State, m: Response, now: real, o: Oracle)
    requires Inv(cfg, s, NoFocus) && cfg.Valid() && o.Valid() && now == s.clock
    ensures m.sid in s.entries ==> Ready(cfg, s, m.sid)
    ensures !Awaited(cfg, s, m.sid, m.srl, m.name) ==> Serviced(cfg, s, m, now, o) == s
    ensures Awaited(cfg, s, m.sid, m.srl, m.name) ==>
              var s1 := Dequeued(s, m.name);
              && Inv(cfg, s1, NoFocus) && s1.clock == s.clock && (m.sid in s1.entries ==> Ready(cfg, s1, m.sid))
              && Awaited(cfg, s1, m.sid, m.srl, m.name)
              && Serviced(cfg, s, m, now, o) == Responded(cfg, s1, m, now, o)
  {
    hide Inv, Ready, Responded, Dequeued;
    InvReadyIf(cfg, s, m.sid);
    if Awaited(cfg, s, m.sid, m.srl, m.name) { StillAwaited(cfg, s, m); }
  }

  lemma ServicedKeeps(cfg: Config, s: State, m: Response, now: real, o: Oracle)
    requires Inv(cfg, s, NoFocus) && cfg.Valid() && o.Valid() && now == s.clock
    ensures Inv(cfg, Serviced(cfg, s, m, now, o), NoFocus)
  {
    hide Inv, Ready, Responded, Dequeued;
    InvReadyIf(cfg, s, m.sid);
    if Awaited(cfg, s, m.sid, m.srl, m.name) {
      StillAwaited(cfg, s, m);
      RespondedKeeps(cfg, Dequeued(s, m.name), m, now, o);
    }
  }
}
