/** Sending requests keeps the invariant, and leaves every sent service with something pending. */
module DispatchSend {
  import opened Prelude
  import opened DispatchModel
  import opened DispatchInvariant

  // ---- Tables --------------------------------------------------------------------------------

  /** No armed timeout is lost. */
  ghost predicate ArmsMore<D(!new)>(t: Table<D>, t': Table<D>) {
    forall sid, srl, d :: Armed(t, sid, srl, d) ==> Armed(t', sid, srl, d)
  }

  lemma ArmArms<D(!new)>(t: Table<D>, k: real, x: Timeout<D>)
    ensures Armed(Arm(t, k, x), x.sid, x.srl, x.data)
    ensures ArmsMore(t, Arm(t, k, x))
  {
    var t' := Arm(t, k, x);
    assert Names(t'[k][|t'[k]| - 1], x.sid, x.srl, x.data);
    forall sid, srl, d | Armed(t, sid, srl, d) ensures Armed(t', sid, srl, d) {
      var k0, i :| k0 in t && 0 <= i < |t[k0]| && Names(t[k0][i], sid, srl, d);
      assert Names(t'[k0][i], sid, srl, d);
    }
  }

  lemma ArmTimely<D(!new)>(t: Table<D>, k: real, x: Timeout<D>, clock: real)
    requires Timely(t, clock) && x.time == clock + k
    ensures Timely(Arm(t, k, x), clock)
  {}

  // ---- What sending may change ---------------------------------------------------------------

  ghost predicate Retried(e: Entry, e': Entry) {
    e' == e.(retries := e'.retries)
  }

  ghost predicate SameRest(s: State, s': State) {
    && s'.completed == s.completed && s'.results == s.results && s'.errors == s.errors
    && s'.score == s.score && s'.log == s.log && s'.asked == s.asked
    && s'.next == s.next && s'.clock == s.clock && s'.started == s.started && s'.lastCheck == s.lastCheck
  }

  /** No submission has been closed in between. */
  ghost predicate SameFinals(storage: seq<StorageMsg>, storage': seq<StorageMsg>) {
    Finals(storage') == Finals(storage) && forall m | m in storage' && m.Finalize? :: m in storage
  }

  /** The only effects of sending requests: retry counters, queue sizes, more timeouts, more
      pending replies, and error records. */
  ghost predicate Sends(s: State, s': State) {
    && s'.entries.Keys == s.entries.Keys
    && (forall sid | sid in s.entries :: s'.entries[sid].Keys == s.entries[sid].Keys)
    && (forall sid, srl | Has(s, sid, srl) :: Has(s', sid, srl) && Retried(At(s, sid, srl), At(s', sid, srl)))
    && SameRest(s, s')
    && ArmsMore(s.ackT, s'.ackT) && ArmsMore(s.svcT, s'.svcT) && ArmsMore(s.childT, s'.childT)
    && s.pending <= s'.pending
    && SameFinals(s.storage, s'.storage)
  }

  lemma FinalsAppend(storage: seq<StorageMsg>, m: StorageMsg)
    ensures Finals(storage + [m]) == Finals(storage) + if m.Finalize? then multiset{m.sid} else multiset{}
  {
    assert (storage + [m])[..|storage|] == storage;
  }

  lemma EffectSends(s: State, sid: Sid, srl: Srl, born: nat, name: Name, out: Outcome, now: real)
    ensures var s' := Effect(s, sid, srl, born, name, out, now);
            && Sends(s, s') && s'.entries == s.entries
            && (Armed(s'.ackT, sid, srl, name) || Owed(s'.pending, sid, srl, name))
  {
    match out
    case Refused(why) => FinalsAppend(s.storage, Error(sid, srl, name, why));
    case Skipped =>
    case Requested(seconds) => ArmArms(s.ackT, seconds, Timeout(sid, srl, name, now + seconds));
  }

  lemma DispatchSends(cfg: Config, s: State, sid: Sid, srl: Srl, name: Name, now: real, o: Oracle)
    requires Has(s, sid, srl) && sid in s.completed && name in cfg.services
    ensures var s' := Dispatch(cfg, s, sid, srl, name, now, o);
            && Sends(s, s')
            && (Armed(s'.ackT, sid, srl, name) || Owed(s'.pending, sid, srl, name))
  {
    var s1 := Tried(s, sid, srl, name);
    assert Sends(s, s1);
    var out := Decide(cfg, s, sid, srl, name, o);
    var born := At(s, sid, srl).born;
    EffectSends(s1, sid, srl, born, name, out, now);
    SendsTrans(s, s1, Effect(s1, sid, srl, born, name, out, now));
  }

  lemma SendsHeld(cfg: Config, s: State, s': State, sid: Sid, srl: Srl, f: Focus)
    requires Sends(s, s') && Has(s, sid, srl) && HeldOk(cfg, s, sid, srl, At(s, sid, srl), f)
    ensures HeldOk(cfg, s', sid, srl, At(s', sid, srl), f)
  {
    var e, e' := At(s, sid, srl), At(s', sid, srl);
    assert Retried(e, e');
    forall st | 0 <= st <= cfg.Done() ensures StageOk(cfg, e', st) { assert StageOk(cfg, e, st); }
  }

  lemma SendsLog(cfg: Config, s: State, s': State, sid: Sid)
    requires Sends(s, s') && sid in s.entries && sid in s.completed && sid in s.log && LogOk(cfg, s, sid)
    ensures LogOk(cfg, s', sid)
  {
    hide Once, Total, Logged, Finals, Armed;
    var files, files' := s.entries[sid], s'.entries[sid];
    forall srl | srl in files ensures Retried(files[srl], files'[srl]) { assert Has(s, sid, srl); }
    forall srl, n | srl in files' ensures Logged(s'.log[sid], srl, n) <==> Finishes(cfg, files'[srl], n) {
      assert Retried(files[srl], files'[srl]);
      assert Finishes(cfg, files'[srl], n) == Finishes(cfg, files[srl], n);
    }
  }

  lemma SendsAsked(cfg: Config, s: State, s': State, sid: Sid)
    requires Sends(s, s') && sid in s.entries && sid in s.completed && sid in s.log && sid in s.asked && AskedOk(cfg, s, sid)
    ensures AskedOk(cfg, s', sid)
  {
    hide SaidDrop, Served, Finals, Armed;
    var files, files' := s.entries[sid], s'.entries[sid];
    forall srl | srl in files ensures Retried(files[srl], files'[srl]) { assert Has(s, sid, srl); }
  }

  lemma SendsSub(cfg: Config, s: State, s': State, sid: Sid)
    requires Sends(s, s') && SubOk(cfg, s, sid) 
    ensures SubOk(cfg, s', sid)
  {
    var files, files' := s.entries[sid], s'.entries[sid];
    SendsLog(cfg, s, s', sid);
    SendsAsked(cfg, s, s', sid);
    hide LogOk, AskedOk, Best, Keys, Finals, Armed;
    forall srl | srl in files ensures Retried(files[srl], files'[srl]) {
      assert Has(s, sid, srl);
    }
    LinkedAlike(files, files');
  }

  lemma SendsKeep(cfg: Config, s: State, s': State, f: Focus)
    requires Sends(s, s') && SubAll(cfg, s) && HeldAll(cfg, s, f) && Balanced(cfg, s)
    ensures SubAll(cfg, s') && HeldAll(cfg, s', f) && Balanced(cfg, s')
  {
    forall sid ensures Slot(cfg, s', sid) {
      assert Slot(cfg, s, sid);
      if sid in s.entries { SendsSub(cfg, s, s', sid); }
    }
    forall sid, srl | Has(s', sid, srl) ensures HeldOk(cfg, s', sid, srl, At(s', sid, srl), f) {
      assert Has(s, sid, srl);
      SendsHeld(cfg, s, s', sid, srl, f);
    }
    hide Slot, HeldOk, FinalOk, Finals;
    forall sid ensures Tally(s', sid) { assert Tally(s, sid); }
    forall m | m in s'.storage ensures FinalOk(cfg, m) { NotFinal(cfg, m); }
  }

  /** The books balance as long as no submission is opened or closed. */
  lemma SameBalance(cfg: Config, s: State, s': State)
    requires Balanced(cfg, s) && s'.storage == s.storage && s'.started == s.started
    requires forall sid :: sid in s.entries <==> sid in s'.entries
    ensures Balanced(cfg, s')
  {
    hide FinalOk, Finals;
    forall sid ensures Tally(s', sid) { assert Tally(s, sid); }
  }

  lemma NotFinal(cfg: Config, m: StorageMsg)
    ensures !m.Finalize? ==> FinalOk(cfg, m)
  {}

  // ---- Counting requests ---------------------------------------------------------------------

  /** `s'` is `s` after one attempt by an entry, which sent a request at most if tries were left. */
  ghost predicate OneTry(cfg: Config, s: State, s': State, sid: Sid, srl: Srl, name: Name)
    requires Has(s, sid, srl)
  {
    var e := At(s, sid, srl);
    && s'.next == s.next
    && s'.entries == Put(s, sid, srl, e.(retries := e.retries[name := Tries(e, name)])).entries
    && (s'.sent == s.sent || (Tries(e, name) <= cfg.maxRetries && s'.sent == s.sent + multiset{(e.born, name)}))
  }

  lemma OneTryCounts(cfg: Config, s: State, s': State, sid: Sid, srl: Srl, name: Name)
    requires Has(s, sid, srl) && SendsOk(cfg, s) && OneTry(cfg, s, s', sid, srl, name)
    ensures SendsOk(cfg, s')
  {
    var e := At(s, sid, srl);
    assert SentOk(cfg, s, e);
    OneTryBorn(cfg, s, s', sid, srl, name);
    forall sid1, srl1 | Has(s', sid1, srl1) ensures SentOk(cfg, s', At(s', sid1, srl1)) {
      assert SentOk(cfg, s, At(s, sid1, srl1));
      assert SameBorn(s, sid, srl, sid1, srl1);
    }
  }

  lemma OneTryBorn(cfg: Config, s: State, s': State, sid: Sid, srl: Srl, name: Name)
    requires Has(s, sid, srl) && SendsOk(cfg, s) && OneTry(cfg, s, s', sid, srl, name)
    ensures forall sid1, srl1, sid2, srl2 :: SameBorn(s', sid1, srl1, sid2, srl2)
  {
    hide SentOk;
    forall sid1, srl1, sid2, srl2 ensures SameBorn(s', sid1, srl1, sid2, srl2) {
      assert SameBorn(s, sid1, srl1, sid2, srl2);
    }
  }

  /** A request is sent only while tries are left. */
  lemma DecideTries(cfg: Config, s: State, sid: Sid, srl: Srl, name: Name, o: Oracle)
    requires Has(s, sid, srl) && sid in s.completed && name in cfg.services
    ensures Decide(cfg, s, sid, srl, name, o).Requested? ==> Tries(At(s, sid, srl), name) <= cfg.maxRetries
  {}

  lemma TriedSame(s: State, sid: Sid, srl: Srl, name: Name)
    requires Has(s, sid, srl)
    ensures var e, r := At(s, sid, srl), Tried(s, sid, srl, name);
            && r.entries == Put(s, sid, srl, e.(retries := e.retries[name := Tries(e, name)])).entries
            && r.next == s.next && r.sent == s.sent
  {
    hide Tries;
  }

  lemma EffectSame(s: State, sid: Sid, srl: Srl, born: nat, name: Name, out: Outcome, now: real)
    ensures var r := Effect(s, sid, srl, born, name, out, now);
            && r.entries == s.entries && r.next == s.next
            && r.sent == if out.Requested? then s.sent + multiset{(born, name)} else s.sent
  {}

  lemma DispatchCounts(cfg: Config, s: State, sid: Sid, srl: Srl, name: Name, now: real, o: Oracle)
    requires Has(s, sid, srl) && sid in s.completed && name in cfg.services
    requires SendsOk(cfg, s)
    ensures SendsOk(cfg, Dispatch(cfg, s, sid, srl, name, now, o))
  {
    hide Put, Tries, Tried, Effect, Decide, SendsOk;
    var out := Decide(cfg, s, sid, srl, name, o);
    var s1 := Tried(s, sid, srl, name);
    var s' := Effect(s1, sid, srl, At(s, sid, srl).born, name, out, now);
    DecideTries(cfg, s, sid, srl, name, o);
    TriedSame(s, sid, srl, name);
    EffectSame(s1, sid, srl, At(s, sid, srl).born, name, out, now);
    assert OneTry(cfg, s, s', sid, srl, name);
    OneTryCounts(cfg, s, s', sid, srl, name);
  }

  lemma EffectTables(cfg: Config, s: State, sid: Sid, srl: Srl, born: nat, name: Name, out: Outcome)
    requires TablesOk(cfg, s) && name in cfg.services
    ensures TablesOk(cfg, Effect(s, sid, srl, born, name, out, s.clock))
  {
    if out.Requested? {
      var x := Timeout(sid, srl, name, s.clock + out.seconds);
      ArmTimely(s.ackT, out.seconds, x, s.clock);
      hide Timely;
      assert Known(cfg, Arm(s.ackT, out.seconds, x));
    }
  }

  lemma DispatchTables(cfg: Config, s: State, sid: Sid, srl: Srl, name: Name, o: Oracle)
    requires Has(s, sid, srl) && sid in s.completed && name in cfg.services && TablesOk(cfg, s)
    ensures TablesOk(cfg, Dispatch(cfg, s, sid, srl, name, s.clock, o))
  {
    EffectTables(cfg, Tried(s, sid, srl, name), sid, srl, At(s, sid, srl).born, name, Decide(cfg, s, sid, srl, name, o));
  }

  lemma InvCompleted(cfg: Config, s: State, f: Focus, sid: Sid, srl: Srl)
    requires Inv(cfg, s, f) && Has(s, sid, srl)
    ensures sid in s.completed
  {
    assert Slot(cfg, s, sid);
  }

  lemma DispatchKeeps(cfg: Config, s: State, f: Focus, sid: Sid, srl: Srl, name: Name, now: real, o: Oracle)
    requires Inv(cfg, s, f) && Has(s, sid, srl) && name in cfg.services && now == s.clock
    ensures sid in s.completed
    ensures var s' := Dispatch(cfg, s, sid, srl, name, now, o);
            && Inv(cfg, s', f) && s'.clock == now
            && (Armed(s'.ackT, sid, srl, name) || Owed(s'.pending, sid, srl, name))
  {
    InvCompleted(cfg, s, f, sid, srl);
    hide SubAll, HeldAll, SendsOk, TablesOk, Balanced, Dispatch;
    DispatchSends(cfg, s, sid, srl, name, now, o);
    SendsKeep(cfg, s, Dispatch(cfg, s, sid, srl, name, now, o), f);
    DispatchCounts(cfg, s, sid, srl, name, now, o);
    DispatchTables(cfg, s, sid, srl, name, o);
  }

  /** A service of the focused entry that has been sent needs no exemption any more. */
  lemma Exempted(cfg: Config, s: State, sid: Sid, srl: Srl, todo: set<Name>, name: Name)
    requires Inv(cfg, s, Focus(sid, srl, todo))
    requires Armed(s.ackT, sid, srl, name) || Owed(s.pending, sid, srl, name)
    ensures Inv(cfg, s, Focus(sid, srl, todo - {name}))
  {
    var f := Focus(sid, srl, todo);
    var f' := Focus(sid, srl, todo - {name});
    hide SubAll, SendsOk, TablesOk, Balanced, Armed, EntryOk, Settled;
    forall sid1, srl1 | Has(s, sid1, srl1) ensures HeldOk(cfg, s, sid1, srl1, At(s, sid1, srl1), f') {
      assert HeldOk(cfg, s, sid1, srl1, At(s, sid1, srl1), f);
    }
  }

  /** Sending one of the services still to be sent. */
  lemma DispatchNext(cfg: Config, s: State, sid: Sid, srl: Srl, name: Name, todo: set<Name>, now: real, o: Oracle)
    requires Inv(cfg, s, Focus(sid, srl, todo)) && Has(s, sid, srl) && now == s.clock && name in cfg.services
    ensures sid in s.completed
    ensures var s' := Dispatch(cfg, s, sid, srl, name, now, o);
            Inv(cfg, s', Focus(sid, srl, todo - {name})) && Has(s', sid, srl) && s'.clock == now
  {
    hide Inv, Dispatch;
    DispatchKeeps(cfg, s, Focus(sid, srl, todo), sid, srl, name, now, o);
    Exempted(cfg, Dispatch(cfg, s, sid, srl, name, now, o), sid, srl, todo, name);
  }

  lemma DispatchAllKeeps(cfg: Config, s: State, sid: Sid, srl: Srl, names: seq<Name>, todo: set<Name>, now: real, o: Oracle)
    requires Inv(cfg, s, Focus(sid, srl, todo)) && Has(s, sid, srl) && now == s.clock
    requires forall n | n in names :: n in cfg.services
    requires forall n | n in todo :: n in names
    requires sid in s.completed
    ensures Inv(cfg, DispatchAll(cfg, s, sid, srl, names, now, o), Focus(sid, srl, {}))
    decreases |names|
  {
    hide SubAll, HeldAll, SendsOk, TablesOk, Balanced, Dispatch;
    if names == [] {
      assert todo == {};
    } else {
      DispatchNext(cfg, s, sid, srl, names[0], todo, now, o);
      assert names == [names[0]] + names[1..];
      DispatchAllKeeps(cfg, Dispatch(cfg, s, sid, srl, names[0], now, o), sid, srl, names[1..], todo - {names[0]}, now, o);
    }
  }

  lemma DispatchAllSends(cfg: Config, s: State, sid: Sid, srl: Srl, names: seq<Name>, now: real, o: Oracle)
    requires Has(s, sid, srl) && sid in s.completed
    requires forall n | n in names :: n in cfg.services
    ensures Sends(s, DispatchAll(cfg, s, sid, srl, names, now, o))
    decreases |names|
  {
    if names != [] {
      var s1 := Dispatch(cfg, s, sid, srl, names[0], now, o);
      DispatchSends(cfg, s, sid, srl, names[0], now, o);
      DispatchAllSends(cfg, s1, sid, srl, names[1..], now, o);
      SendsTrans(s, s1, DispatchAll(cfg, s, sid, srl, names, now, o));
    }
  }

  lemma SendsTrans(s: State, s1: State, s2: State)
    requires Sends(s, s1) && Sends(s1, s2)
    ensures Sends(s, s2)
  {
    forall sid, srl | Has(s, sid, srl) ensures Has(s2, sid, srl) && Retried(At(s, sid, srl), At(s2, sid, srl)) {
      assert Has(s1, sid, srl);
    }
  }
}
