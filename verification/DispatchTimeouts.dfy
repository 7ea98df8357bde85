/** check_timeouts and process_timeouts: what expired timeouts set off. */
module DispatchTimeouts {
  // Expired ack, service and child timeouts are taken off the front of their lists, and their requests
  // sent again or their entries moved on.

  import opened Prelude
  import opened DispatchModel
  import opened DispatchInvariant
  import opened DispatchSend
  import opened DispatchUpdate
  import opened DispatchEvents

  function TableOf(s: State, ack: bool): Table<Name> {
    if ack then s.ackT else s.svcT
  }

  function WithTable(s: State, ack: bool, t: Table<Name>): State {
    if ack then s.(ackT := t) else s.(svcT := t)
  }

  /** The table without the first timeout of one list. */
  function Rest<D>(t: Table<D>, k: real): Table<D>
    requires k in t && t[k] != []
  {
    t[k := t[k][1..]]
  }

  /** How many timeouts at the front of a list lie in the past. */
  function Expired<D>(v: seq<Timeout<D>>, now: real): (n: nat)
    ensures n <= |v|
  {
    if v == [] || v[0].time >= now then 0 else 1 + Expired(v[1..], now)
  }

  /** In an ordered list, the scanned front holds exactly the timeouts that have expired. */
  lemma {:induction false} ExpiredExact<D>(v: seq<Timeout<D>>, now: real)
    requires forall i, j | 0 <= i < j < |v| :: v[i].time <= v[j].time
    ensures forall i | 0 <= i < |v| :: v[i].time < now <==> i < Expired(v, now)
  {
    if v != [] && v[0].time < now {
      ExpiredExact(v[1..], now);
      forall i | 0 <= i < |v| ensures v[i].time < now <==> i < Expired(v, now) {
        if i > 0 { assert v[i] == v[1..][i - 1]; }
      }
    }
  }

  // ---- Tables in which only fresh timeouts appear --------------------------------------------

  /** Every list of `t` is a prefix of its list in `t'`; what `t'` adds was armed at `now`. */
  ghost predicate Fresh<D(!new)>(t: Table<D>, t': Table<D>, now: real) {
    && (forall k | k in t :: k in t' && t[k] <= t'[k])
    && (forall k, i | k in t' && |Get(t, k, [])| <= i < |t'[k]| :: t'[k][i].time == now + k)
  }

  lemma FreshArm<D(!new)>(t: Table<D>, k: real, x: Timeout<D>, now: real)
    requires x.time == now + k
    ensures Fresh(t, Arm(t, k, x), now)
  {}

  lemma FreshTrans<D(!new)>(t0: Table<D>, t1: Table<D>, t2: Table<D>, now: real)
    requires Fresh(t0, t1, now) && Fresh(t1, t2, now)
    ensures Fresh(t0, t2, now)
  {
    forall k, i | k in t2 && |Get(t0, k, [])| <= i < |t2[k]| ensures t2[k][i].time == now + k {
      if k in t1 && i < |t1[k]| { assert t2[k][i] == t1[k][i]; }
    }
  }

  lemma DispatchFresh(cfg: Config, s: State, sid: Sid, srl: Srl, name: Name, now: real, o: Oracle)
    requires Has(s, sid, srl) && sid in s.completed && name in cfg.services
    ensures var s' := Dispatch(cfg, s, sid, srl, name, now, o);
            Fresh(s.ackT, s'.ackT, now) && s'.svcT == s.svcT && s'.childT == s.childT
  {
    EffectFresh(Tried(s, sid, srl, name), sid, srl, At(s, sid, srl).born, name, Decide(cfg, s, sid, srl, name, o), now);
  }

  lemma EffectFresh(s: State, sid: Sid, srl: Srl, born: nat, name: Name, out: Outcome, now: real)
    ensures var s' := Effect(s, sid, srl, born, name, out, now);
            Fresh(s.ackT, s'.ackT, now) && s'.svcT == s.svcT && s'.childT == s.childT
  {
    if out.Requested? { FreshArm(s.ackT, out.seconds, Timeout(sid, srl, name, now + out.seconds), now); }
  }

  // ---- What moving entries on leaves alone ---------------------------------------------------

  /** An entry has moved on at most: no service was acknowledged or completed, no child has come. */
  ghost predicate Alike(e: Entry, e': Entry) {
    && e'.born == e.born && e'.selected == e.selected && e'.dropAt == e.dropAt
    && e'.completed == e.completed && e'.acked == e.acked
    && e'.stage >= e.stage && e'.outstandingKids <= e.outstandingKids
  }

  /** Entries disappear or move on, but no completed service is forgotten. */
  ghost predicate KeepsDone(s: State, s': State) {
    forall sid, srl | Has(s', sid, srl) :: Has(s, sid, srl) && Alike(At(s, sid, srl), At(s', sid, srl))
  }

  /** The failed replies that the error records on the storage queue stand for. */
  function Notices(storage: seq<StorageMsg>): multiset<Reply> {
    if storage == [] then multiset{}
    else
      var m := storage[|storage| - 1];
      Notices(storage[..|storage| - 1]) + if m.Error? then multiset{Reply(m.sid, m.srl, m.name, true)} else multiset{}
  }

  lemma NoticesAppend(storage: seq<StorageMsg>, m: StorageMsg)
    ensures Notices(storage + [m]) == Notices(storage) + if m.Error? then multiset{Reply(m.sid, m.srl, m.name, true)} else multiset{}
  {
    assert (storage + [m])[..|storage|] == storage;
  }

  /** As many failed replies have been caused as error records pushed. */
  ghost predicate Noticed(s: State, s': State, r: Reply) {
    Notices(s'.storage)[r] + s.pending[r] == Notices(s.storage)[r] + s'.pending[r]
  }

  ghost predicate Tells(s: State, s': State) {
    forall r: Reply :: r.failed ==> Noticed(s, s', r)
  }

  lemma TellsTrans(s0: State, s1: State, s2: State)
    requires Tells(s0, s1) && Tells(s1, s2)
    ensures Tells(s0, s2)
  {
    forall r: Reply | r.failed ensures Noticed(s0, s2, r) { assert Noticed(s0, s1, r) && Noticed(s1, s2, r); }
  }

  /** A final record with these completions and messages has been pushed for the submission. */
  ghost predicate Pushed(storage: seq<StorageMsg>, sid: Sid, log: seq<Finished>, asked: map<Srl, Submission>) {
    exists m :: m in storage && m.Finalize? && m.sid == sid && m.log == log && m.asked == asked
  }

  /** The submission's history is as before, or has gone into a final record. */
  ghost predicate Kept(s: State, s': State, sid: Sid) {
    || (SameIn(s.log, s'.log, sid) && SameIn(s.asked, s'.asked, sid))
    || (sid !in s'.log && sid !in s'.asked && sid in s.log && sid in s.asked && Pushed(s'.storage, sid, s.log[sid], s.asked[sid]))
  }

  /** A final record says what was recorded of its submission. */
  ghost predicate FromBooks(s: State, m: StorageMsg) {
    m.Finalize? ==> m.sid in s.log && m.sid in s.asked && m.log == s.log[m.sid] && m.asked == s.asked[m.sid]
  }

  /** No history is made up or lost, and nothing pushed is taken back. */
  ghost predicate Books(s: State, s': State) {
    && s.storage <= s'.storage
    && (forall sid :: Kept(s, s', sid))
    && (forall m | m in s'.storage && m !in s.storage :: FromBooks(s, m))
  }

  lemma KeptTrans(s0: State, s1: State, s2: State, sid: Sid)
    requires Kept(s0, s1, sid) && Kept(s1, s2, sid) && s1.storage <= s2.storage
    ensures Kept(s0, s2, sid)
  {}

  lemma BooksTrans(s0: State, s1: State, s2: State)
    requires Books(s0, s1) && Books(s1, s2)
    ensures Books(s0, s2)
  {
    forall sid ensures Kept(s0, s2, sid) { KeptTrans(s0, s1, s2, sid); }
    forall m | m in s2.storage && m !in s0.storage ensures FromBooks(s0, m) {
      if m !in s1.storage && m.Finalize? {
        assert FromBooks(s1, m);
        assert Kept(s0, s1, m.sid);
      }
    }
  }

  lemma SameBooks(s: State, s': State)
    requires s'.storage == s.storage && s'.pending == s.pending && s'.log == s.log && s'.asked == s.asked
    ensures Tells(s, s') && Books(s, s')
  {
    hide Notices;
  }

  /** A record other than a final one leaves the books alone. */
  lemma PushBooks(s: State, s': State, m: StorageMsg)
    requires s'.storage == s.storage + [m] && !m.Finalize? && s'.log == s.log && s'.asked == s.asked
    ensures Books(s, s')
  {}

  lemma NoticeTells(s: State, s': State, m: StorageMsg)
    requires s'.storage == s.storage + [m]
    requires s'.pending == s.pending + if m.Error? then multiset{Reply(m.sid, m.srl, m.name, true)} else multiset{}
    ensures Tells(s, s')
  {
    NoticesAppend(s.storage, m);
    hide Notices;
  }

  /** Replies and requests are only added, each failed reply with its error record; nothing is started. */
  ghost predicate Adds(s: State, s': State) {
    s.pending <= s'.pending && s.sent <= s'.sent && s'.started == s.started && Tells(s, s') && Books(s, s')
  }

  /** Moving entries on only adds ack timeouts, requests and replies, and forgets no completed service. */
  ghost predicate MovesOn(s: State, s': State, now: real) {
    && Fresh(s.ackT, s'.ackT, now) && s'.svcT == s.svcT && s'.childT == s.childT
    && s'.clock == s.clock && s'.lastCheck == s.lastCheck
    && KeepsDone(s, s') && Adds(s, s')
  }

  lemma MovesTrans(s0: State, s1: State, s2: State, now: real)
    requires MovesOn(s0, s1, now) && MovesOn(s1, s2, now)
    ensures MovesOn(s0, s2, now)
  {
    FreshTrans(s0.ackT, s1.ackT, s2.ackT, now);
    TellsTrans(s0, s1, s2);
    BooksTrans(s0, s1, s2);
    hide Fresh, Tells, Books;
  }

  lemma PutMoves(s: State, sid: Sid, srl: Srl, e: Entry, now: real)
    requires Has(s, sid, srl) && Alike(At(s, sid, srl), e)
    ensures MovesOn(s, Put(s, sid, srl, e), now)
  {
    SameBooks(s, Put(s, sid, srl, e));
    hide Tells, Books;
  }

  lemma DispatchMoves(cfg: Config, s: State, sid: Sid, srl: Srl, name: Name, now: real, o: Oracle)
    requires Has(s, sid, srl) && sid in s.completed && name in cfg.services
    ensures MovesOn(s, Dispatch(cfg, s, sid, srl, name, now, o), now)
  {
    hide Dispatch, Fresh;
    DispatchFresh(cfg, s, sid, srl, name, now, o);
    DispatchSends(cfg, s, sid, srl, name, now, o);
    SendsDone(s, Dispatch(cfg, s, sid, srl, name, now, o));
    DispatchAdds(cfg, s, sid, srl, name, now, o);
  }

  lemma DispatchAdds(cfg: Config, s: State, sid: Sid, srl: Srl, name: Name, now: real, o: Oracle)
    requires Has(s, sid, srl) && sid in s.completed && name in cfg.services
    ensures Adds(s, Dispatch(cfg, s, sid, srl, name, now, o))
  {
    hide Effect, Decide, Tells, Books;
    var s1, s' := Tried(s, sid, srl, name), Dispatch(cfg, s, sid, srl, name, now, o);
    SameBooks(s, s1);
    EffectAdds(s1, sid, srl, At(s, sid, srl).born, name, Decide(cfg, s, sid, srl, name, o), now);
    TellsTrans(s, s1, s');
    BooksTrans(s, s1, s');
  }

  lemma EffectAdds(s: State, sid: Sid, srl: Srl, born: nat, name: Name, out: Outcome, now: real)
    ensures Adds(s, Effect(s, sid, srl, born, name, out, now))
  {
    EffectBooks(s, sid, srl, born, name, out, now);
    hide Arm, Tells, Books;
  }

  lemma EffectBooks(s: State, sid: Sid, srl: Srl, born: nat, name: Name, out: Outcome, now: real)
    ensures Tells(s, Effect(s, sid, srl, born, name, out, now)) && Books(s, Effect(s, sid, srl, born, name, out, now))
  {
    hide Tells, Books, Arm;
    var s' := Effect(s, sid, srl, born, name, out, now);
    match out
    case Refused(why) =>
      NoticeTells(s, s', Error(sid, srl, name, why));
      PushBooks(s, s', Error(sid, srl, name, why));
    case Skipped => SkipBooks(s, s', Reply(sid, srl, name, false));
    case Requested(seconds) => SameBooks(s, s');
  }

  lemma SkipBooks(s: State, s': State, r: Reply)
    requires !r.failed && s'.pending == s.pending + multiset{r} && s'.storage == s.storage && s'.log == s.log && s'.asked == s.asked
    ensures Tells(s, s') && Books(s, s')
  {
    hide Notices;
  }

  lemma SendsDone(s: State, s': State)
    requires Sends(s, s')
    ensures KeepsDone(s, s')
  {
    hide Finals, Armed;
    forall sid, srl | Has(s', sid, srl) ensures Has(s, sid, srl) && Alike(At(s, sid, srl), At(s', sid, srl)) {
      assert sid in s.entries && s'.entries[sid].Keys == s.entries[sid].Keys;
      assert Has(s, sid, srl);
      assert Retried(At(s, sid, srl), At(s', sid, srl));
    }
  }

  /** Moving the finished entry to completed and telling its parent. */
  lemma ToldMoves(s: State, sid: Sid, srl: Srl, now: real)
    requires Leaving(s, sid, srl)
    ensures MovesOn(s, Told(s, sid, srl), now)
  {
    hide Fresh, Told, Tells, Books;
    SameFresh(s.ackT, now);
    ToldFrame(s, sid, srl);
    var r := Told(s, sid, srl);
    SameBooks(s, r);
    forall sid1, srl1 | Has(r, sid1, srl1) ensures Has(s, sid1, srl1) && Alike(At(s, sid1, srl1), At(r, sid1, srl1)) {
      ToldEntry(s, sid, srl, sid1, srl1);
    }
  }

  lemma RootMoves(cfg: Config, s: State, sid: Sid, srl: Srl, now: real, o: Oracle)
    requires Ready(cfg, s, sid) && srl in s.entries[sid] && o.Valid()
    requires At(s, sid, srl).outstandingKids == {} && At(s, sid, srl).parent.None?
    ensures MovesOn(s, Remove(cfg, s, sid, srl, now, o), now)
  {
    hide Fresh, Remove, Ready, Tells, Books;
    SameFresh(s.ackT, now);
    RootFrame(cfg, s, sid, srl, now, o);
    RootBooks(cfg, s, sid, srl, now, o);
    RootEntries(cfg, s, sid, srl, now, o);
  }

  /** The records pushed when a root leaves. */
  lemma RootBooks(cfg: Config, s: State, sid: Sid, srl: Srl, now: real, o: Oracle)
    requires Ready(cfg, s, sid) && srl in s.entries[sid] && o.Valid()
    requires At(s, sid, srl).outstandingKids == {} && At(s, sid, srl).parent.None?
    ensures var r := Remove(cfg, s, sid, srl, now, o); Tells(s, r) && Books(s, r)
  {
    hide Tells, Books, Remove, Told, Closed, Linked, Shaped, FinalRecord;
    RemoveRoot(cfg, s, sid, srl, now, o);
    ToldFrame(s, sid, srl);
    var s1 := Told(s, sid, srl);
    var c := Complete(sid, s1.score[sid].GetOr(0));
    var s2 := s1.(storage := s1.storage + [c]);
    NoticeTells(s, s2, c);
    PushBooks(s, s2, c);
    if s1.entries[sid] == map[] {
      var s3 := Closed(s, sid, srl, c);
      ClosedStorage(s, sid, srl, c);
      ClosedFrame(s, sid, srl, c);
      forall x | x != sid ensures SameIn(s2.log, s3.log, x) && SameIn(s2.asked, s3.asked, x) { ClosedOther(s, sid, srl, c, x); }
      var r := FinalRecord(s2, sid, srl, At(s, sid, srl));
      FinalSays(s2, sid, srl, At(s, sid, srl));
      NoticeTells(s2, s3, r);
      FinalBooks(s2, s3, sid, r);
      TellsTrans(s, s2, s3);
      BooksTrans(s, s2, s3);
    }
  }

  lemma FinalSays(s: State, sid: Sid, srl: Srl, e: Entry)
    requires sid in s.completed && sid in s.results && sid in s.errors && sid in s.score && sid in s.log && sid in s.asked
    ensures var r := FinalRecord(s, sid, srl, e); r.Finalize? && r.sid == sid && r.log == s.log[sid] && r.asked == s.asked[sid]
  {}

  /** Pushing a submission's final record and forgetting it leaves the books in order. */
  lemma FinalBooks(s: State, s': State, sid: Sid, r: StorageMsg)
    requires s'.storage == s.storage + [r] && r.Finalize? && r.sid == sid && sid in s.log && sid in s.asked
    requires r.log == s.log[sid] && r.asked == s.asked[sid] && sid !in s'.log && sid !in s'.asked
    requires forall x | x != sid :: SameIn(s.log, s'.log, x) && SameIn(s.asked, s'.asked, x)
    ensures Books(s, s')
  {
    assert r in s'.storage;
    assert Pushed(s'.storage, sid, s.log[sid], s.asked[sid]);
    forall x ensures Kept(s, s', x) {}
  }

  lemma RootFrame(cfg: Config, s: State, sid: Sid, srl: Srl, now: real, o: Oracle)
    requires Ready(cfg, s, sid) && srl in s.entries[sid] && o.Valid()
    requires At(s, sid, srl).outstandingKids == {} && At(s, sid, srl).parent.None?
    ensures var r := Remove(cfg, s, sid, srl, now, o);
            && r.ackT == s.ackT && r.svcT == s.svcT && r.childT == s.childT && r.clock == s.clock && r.lastCheck == s.lastCheck
            && r.pending == s.pending && r.sent == s.sent && r.started == s.started
  {
    hide Linked, Shaped, Better, FinalRecord;
  }

  lemma RootEntries(cfg: Config, s: State, sid: Sid, srl: Srl, now: real, o: Oracle)
    requires Ready(cfg, s, sid) && srl in s.entries[sid] && o.Valid()
    requires At(s, sid, srl).outstandingKids == {} && At(s, sid, srl).parent.None?
    ensures var r := Remove(cfg, s, sid, srl, now, o);
            forall sid1, srl1 | Has(r, sid1, srl1) :: Has(s, sid1, srl1) && At(r, sid1, srl1) == At(s, sid1, srl1)
  {
    hide Linked, Shaped, Better, FinalRecord;
  }

  lemma {:induction false} DispatchAllMoves(cfg: Config, s: State, sid: Sid, srl: Srl, names: seq<Name>, now: real, o: Oracle)
    requires Has(s, sid, srl) && sid in s.completed
    requires forall n | n in names :: n in cfg.services
    ensures MovesOn(s, DispatchAll(cfg, s, sid, srl, names, now, o), now)
    decreases |names|
  {
    if names == [] {
      PutMoves(s, sid, srl, At(s, sid, srl), now);
    } else {
      hide Dispatch, MovesOn;
      var s1 := Dispatch(cfg, s, sid, srl, names[0], now, o);
      DispatchMoves(cfg, s, sid, srl, names[0], now, o);
      DispatchAllMoves(cfg, s1, sid, srl, names[1..], now, o);
      MovesTrans(s, s1, DispatchAll(cfg, s, sid, srl, names, now, o), now);
    }
  }

  lemma {:induction false} UpdateMoves(cfg: Config, s: State, sid: Sid, srl: Srl, now: real, o: Oracle)
    requires Ready(cfg, s, sid) && srl in s.entries[sid] && o.Valid()
    ensures MovesOn(s, Update(cfg, s, sid, srl, now, o), now)
    decreases |s.entries[sid]|, 1
  {
    hide MovesOn, Linked;
    var e := At(s, sid, srl);
    var stage := NextStage(cfg, e, e.stage);
    var s' := Update(cfg, s, sid, srl, now, o);
    if stage == cfg.Done() || e.dispatched[stage] != {} {
      var s1 := Put(s, sid, srl, e.(stage := stage));
      PutMoves(s, sid, srl, e.(stage := stage), now);
      if stage == cfg.Done() && e.outstandingKids == {} && e.extracted == {} {
        ReadyPut(cfg, s, sid, srl, e.(stage := stage));
        RemoveMoves(cfg, s1, sid, srl, now, o);
        MovesTrans(s, s1, s', now);
      }
    } else {
      var todo := e.outstanding[stage];
      var e1 := e.(stage := stage, dispatched := e.dispatched[stage := todo], outstanding := e.outstanding[stage := {}]);
      PutMoves(s, sid, srl, e1, now);
      DispatchAllMoves(cfg, Put(s, sid, srl, e1), sid, srl, o.order(todo), now, o);
      MovesTrans(s, Put(s, sid, srl, e1), s', now);
    }
  }

  lemma {:induction false} RemoveMoves(cfg: Config, s: State, sid: Sid, srl: Srl, now: real, o: Oracle)
    requires Ready(cfg, s, sid) && srl in s.entries[sid] && o.Valid()
    requires At(s, sid, srl).outstandingKids == {}
    ensures MovesOn(s, Remove(cfg, s, sid, srl, now, o), now)
    decreases |s.entries[sid]|, 0
  {
    hide MovesOn;
    var e := At(s, sid, srl);
    if e.parent.Some? {
      WithoutLinked(s.entries[sid], srl);
      ToldMoves(s, sid, srl, now);
      var s1 := Told(s, sid, srl);
      assert s1.entries[sid] == Without(s.entries[sid], srl);
      UpdateMoves(cfg, s1, sid, e.parent.value, now, o);
      MovesTrans(s, s1, Remove(cfg, s, sid, srl, now, o), now);
    } else {
      RootMoves(cfg, s, sid, srl, now, o);
    }
  }

  // ---- One timeout of a request --------------------------------------------------------------

  lemma RestArms<D(!new)>(t: Table<D>, k: real)
    requires k in t && t[k] != []
    ensures forall sid, srl, d :: Armed(t, sid, srl, d) ==> Armed(Rest(t, k), sid, srl, d) || Names(t[k][0], sid, srl, d)
  {
    forall sid, srl, d | Armed(t, sid, srl, d) && !Names(t[k][0], sid, srl, d) ensures Armed(Rest(t, k), sid, srl, d) {
      var k1, i :| k1 in t && 0 <= i < |t[k1]| && Names(t[k1][i], sid, srl, d);
      var j := if k1 == k then i - 1 else i;
      assert Names(Rest(t, k)[k1][j], sid, srl, d);
    }
  }

  lemma RestTimely<D(!new)>(t: Table<D>, k: real, clock: real)
    requires k in t && t[k] != [] && Timely(t, clock)
    ensures Timely(Rest(t, k), clock)
  {
    var t': Table<D> := Rest(t, k);
    forall k1, i | k1 in t' && 0 <= i < |t'[k1]| ensures t'[k1][i].time <= clock + k1 {
      if k1 == k { assert t'[k1][i] == t[k][i + 1]; }
    }
    forall k1, i, j | k1 in t' && 0 <= i < j < |t'[k1]| ensures t'[k1][i].time <= t'[k1][j].time {
      if k1 == k { assert t'[k1][i] == t[k][i + 1] && t'[k1][j] == t[k][j + 1]; }
    }
  }

  /** process_timeouts for one timeout: off the list, and back on its end if the request is sent again. */
  function Fire(cfg: Config, s: State, ack: bool, k: real, now: real, o: Oracle): State
    requires Inv(cfg, s, NoFocus) && cfg.Valid()
    requires k in TableOf(s, ack) && TableOf(s, ack)[k] != []
  {
    var t := TableOf(s, ack)[k][0];
    var s1 := WithTable(s, ack, Rest(TableOf(s, ack), k));
    assert t.sid in s.entries ==> Ready(cfg, s1, t.sid) by { if t.sid in s.entries { InvReady(cfg, s, NoFocus, t.sid); } }
    if Resend(cfg, s1, ack, t.sid, t.srl, t.data) then
      var s2 := Dispatch(cfg, s1, t.sid, t.srl, t.data, now, o);
      WithTable(s2, ack, Arm(TableOf(s2, ack), k, Timeout(t.sid, t.srl, t.data, now + k)))
    else s1
  }

  /** The timeout's service is completed or, for an ack timeout, acknowledged. */
  predicate Spent(cfg: Config, s: State, ack: bool, t: Timeout<Name>) {
    t.data in cfg.services &&
    (Has(s, t.sid, t.srl) ==>
      (var e := At(s, t.sid, t.srl);
       var st := cfg.services[t.data].stage;
       st < |e.completed| && st < |e.acked| && (t.data in e.completed[st] || (ack && t.data in e.acked[st]))))
  }

  /** No entry relies on a spent timeout. */
  lemma PoppedHeld(cfg: Config, s: State, ack: bool, k: real, sid: Sid, srl: Srl)
    requires k in TableOf(s, ack) && TableOf(s, ack)[k] != [] && Has(s, sid, srl)
    requires HeldOk(cfg, s, sid, srl, At(s, sid, srl), NoFocus) && cfg.Valid()
    requires Spent(cfg, s, ack, TableOf(s, ack)[k][0])
    ensures HeldOk(cfg, WithTable(s, ack, Rest(TableOf(s, ack), k)), sid, srl, At(s, sid, srl), NoFocus)
  {
    var t := TableOf(s, ack)[k][0];
    var e := At(s, sid, srl);
    RestArms(TableOf(s, ack), k);
    forall st, n | 0 <= st <= cfg.Done() && (n in e.dispatched[st] || n in e.acked[st])
      ensures n in cfg.services && cfg.services[n].stage == st && n !in e.completed[st] && !(n in e.dispatched[st] && n in e.acked[st])
    {
      WaitingStage(cfg, e, n, st);
    }
    hide Armed, EntryOk;
  }

  lemma PoppedKeeps(cfg: Config, s: State, ack: bool, k: real)
    requires Inv(cfg, s, NoFocus) && cfg.Valid()
    requires k in TableOf(s, ack) && TableOf(s, ack)[k] != []
    requires Spent(cfg, s, ack, TableOf(s, ack)[k][0])
    ensures Inv(cfg, WithTable(s, ack, Rest(TableOf(s, ack), k)), NoFocus)
  {
    var s' := WithTable(s, ack, Rest(TableOf(s, ack), k));
    PoppedTables(cfg, s, ack, k);
    SameBalance(cfg, s, s');
    hide Balanced, SendsOk, TablesOk, HeldOk, SubOk, Rest;
    forall sid, srl | Has(s', sid, srl) ensures HeldOk(cfg, s', sid, srl, At(s', sid, srl), NoFocus) {
      PoppedHeld(cfg, s, ack, k, sid, srl);
    }
    FewerSends(cfg, s, s');
    forall sid ensures Slot(cfg, s', sid) { assert Slot(cfg, s, sid); SlotElsewhere(cfg, s, s', sid); }
  }

  lemma PoppedTables(cfg: Config, s: State, ack: bool, k: real)
    requires TablesOk(cfg, s) && k in TableOf(s, ack) && TableOf(s, ack)[k] != []
    ensures TablesOk(cfg, WithTable(s, ack, Rest(TableOf(s, ack), k)))
    ensures TableOf(s, ack)[k][0].data in cfg.services
  {
    RestTimely(TableOf(s, ack), k, s.clock);
    hide Timely;
    var t': Table<Name> := Rest(TableOf(s, ack), k);
    forall k1, i | k1 in t' && 0 <= i < |t'[k1]| ensures t'[k1][i].data in cfg.services {
      if k1 == k { assert t'[k1][i] == TableOf(s, ack)[k][i + 1]; }
    }
  }

  /** Sending again and arming again replaces the timeout that was taken off. */
  lemma RearmedMore(t0: Table<Name>, k: real, t1: Table<Name>, x: Timeout<Name>)
    requires k in t0 && t0[k] != [] && ArmsMore(Rest(t0, k), t1)
    requires Names(t0[k][0], x.sid, x.srl, x.data)
    ensures ArmsMore(t0, Arm(t1, k, x))
  {
    RestArms(t0, k);
    ArmArms(t1, k, x);
    hide Armed, Rest;
  }

  lemma ResentSends(cfg: Config, s: State, ack: bool, k: real, s2: State, x: Timeout<Name>)
    requires k in TableOf(s, ack) && TableOf(s, ack)[k] != []
    requires Names(TableOf(s, ack)[k][0], x.sid, x.srl, x.data)
    requires Sends(WithTable(s, ack, Rest(TableOf(s, ack), k)), s2)
    ensures Sends(s, WithTable(s2, ack, Arm(TableOf(s2, ack), k, x)))
  {
    hide Armed, Rest, Finals;
    RearmedMore(TableOf(s, ack), k, TableOf(s2, ack), x);
    hide ArmsMore, Arm;
    var s1 := WithTable(s, ack, Rest(TableOf(s, ack), k));
    var s' := WithTable(s2, ack, Arm(TableOf(s2, ack), k, x));
    forall sid, srl | Has(s, sid, srl) ensures Has(s', sid, srl) && Retried(At(s, sid, srl), At(s', sid, srl)) {
      assert Has(s1, sid, srl);
    }
  }

  lemma RearmedTables(cfg: Config, s: State, ack: bool, k: real, x: Timeout<Name>)
    requires TablesOk(cfg, s) && x.time == s.clock + k && x.data in cfg.services
    ensures TablesOk(cfg, WithTable(s, ack, Arm(TableOf(s, ack), k, x)))
  {
    ArmTimely(TableOf(s, ack), k, x, s.clock);
    hide Timely;
    assert Known(cfg, Arm(TableOf(s, ack), k, x));
  }

  /** Taking a timeout off its list and, if its service is still wanted, sending it again. */
  lemma ResentKeeps(cfg: Config, s: State, ack: bool, k: real, x: Timeout<Name>, o: Oracle)
    requires Inv(cfg, s, NoFocus) && k in TableOf(s, ack) && TableOf(s, ack)[k] != []
    requires Names(TableOf(s, ack)[k][0], x.sid, x.srl, x.data) && x.time == s.clock + k
    requires Has(s, x.sid, x.srl) && x.data in cfg.services
    ensures x.sid in s.completed
    ensures var s1 := WithTable(s, ack, Rest(TableOf(s, ack), k));
            var s2 := Dispatch(cfg, s1, x.sid, x.srl, x.data, s.clock, o);
            Inv(cfg, WithTable(s2, ack, Arm(TableOf(s2, ack), k, x)), NoFocus)
  {
    InvSlot(cfg, s, NoFocus, x.sid);
    hide Sends, SubAll, HeldAll, SendsOk, TablesOk, Balanced, Rest, Dispatch, Arm;
    var s1 := WithTable(s, ack, Rest(TableOf(s, ack), k));
    var s2 := Dispatch(cfg, s1, x.sid, x.srl, x.data, s.clock, o);
    var s' := WithTable(s2, ack, Arm(TableOf(s2, ack), k, x));
    DispatchSends(cfg, s1, x.sid, x.srl, x.data, s.clock, o);
    ResentSends(cfg, s, ack, k, s2, x);
    SendsKeep(cfg, s, s', NoFocus);
    SendsOkTable(cfg, s, ack, Rest(TableOf(s, ack), k));
    DispatchCounts(cfg, s1, x.sid, x.srl, x.data, s.clock, o);
    SendsOkTable(cfg, s2, ack, Arm(TableOf(s2, ack), k, x));
    PoppedTables(cfg, s, ack, k);
    DispatchTables(cfg, s1, x.sid, x.srl, x.data, o);
    SendsClock(s1, s2);
    RearmedTables(cfg, s2, ack, k, x);
  }

  lemma SendsOkTable(cfg: Config, s: State, ack: bool, t: Table<Name>)
    requires SendsOk(cfg, s)
    ensures SendsOk(cfg, WithTable(s, ack, t))
  {
    hide SendsOk;
    FewerSends(cfg, s, WithTable(s, ack, t));
  }

  lemma SendsClock(s: State, s': State)
    requires Sends(s, s')
    ensures s'.clock == s.clock
  {}

  lemma HeadKnown(cfg: Config, s: State, ack: bool, k: real)
    requires Inv(cfg, s, NoFocus) && k in TableOf(s, ack) && TableOf(s, ack)[k] != []
    ensures TableOf(s, ack)[k][0].data in cfg.services
  {
    hide SubAll, HeldAll, SendsOk, Timely;
  }

  /** A timeout whose service is not wanted again is spent. */
  lemma SpentOtherwise(cfg: Config, s: State, ack: bool, t: Timeout<Name>)
    requires (t.sid in s.entries ==> Ready(cfg, s, t.sid)) && cfg.Valid() && t.data in cfg.services
    requires !Resend(cfg, s, ack, t.sid, t.srl, t.data)
    ensures Spent(cfg, s, ack, t)
  {
    if Has(s, t.sid, t.srl) { assert Shaped(cfg, s.entries[t.sid][t.srl]); }
  }

  lemma SameReady(cfg: Config, s: State, ack: bool, t: Table<Name>, sid: Sid)
    requires Ready(cfg, s, sid)
    ensures Ready(cfg, WithTable(s, ack, t), sid)
  {}

  lemma FireKeeps(cfg: Config, s: State, ack: bool, k: real, now: real, o: Oracle)
    requires Inv(cfg, s, NoFocus) && cfg.Valid() && now == s.clock
    requires k in TableOf(s, ack) && TableOf(s, ack)[k] != []
    ensures var s' := Fire(cfg, s, ack, k, now, o); Inv(cfg, s', NoFocus) && s'.clock == now
  {
    hide Inv, Rest, Dispatch, Arm, Ready;
    var t := TableOf(s, ack)[k][0];
    var s1 := WithTable(s, ack, Rest(TableOf(s, ack), k));
    HeadKnown(cfg, s, ack, k);
    InvSlot(cfg, s, NoFocus, t.sid);
    if t.sid in s.entries {
      InvReady(cfg, s, NoFocus, t.sid);
      SameReady(cfg, s, ack, Rest(TableOf(s, ack), k), t.sid);
    }
    if Resend(cfg, s1, ack, t.sid, t.srl, t.data) {
      ResentKeeps(cfg, s, ack, k, Timeout(t.sid, t.srl, t.data, now + k), o);
      DispatchClock(cfg, s1, t.sid, t.srl, t.data, now, o);
    } else {
      SpentOtherwise(cfg, s1, ack, t);
      PoppedKeeps(cfg, s, ack, k);
    }
  }

  lemma DispatchClock(cfg: Config, s: State, sid: Sid, srl: Srl, name: Name, now: real, o: Oracle)
    requires Has(s, sid, srl) && sid in s.completed && name in cfg.services
    ensures Dispatch(cfg, s, sid, srl, name, now, o).clock == s.clock
  {
    hide Sends;
    DispatchSends(cfg, s, sid, srl, name, now, o);
    SendsClock(s, Dispatch(cfg, s, sid, srl, name, now, o));
  }

  /** Apart from the list's first timeout, firing only adds fresh timeouts. */
  lemma FireFresh(cfg: Config, s: State, ack: bool, k: real, now: real, o: Oracle)
    requires Inv(cfg, s, NoFocus) && cfg.Valid() && k in TableOf(s, ack) && TableOf(s, ack)[k] != []
    ensures var s' := Fire(cfg, s, ack, k, now, o);
            && Fresh(Rest(TableOf(s, ack), k), TableOf(s', ack), now)
            && Fresh(TableOf(s, !ack), TableOf(s', !ack), now) && s'.childT == s.childT
  {
    var t := TableOf(s, ack)[k][0];
    var s1 := WithTable(s, ack, Rest(TableOf(s, ack), k));
    hide Inv, Rest, Dispatch, Arm, Fresh, Ready;
    HeadKnown(cfg, s, ack, k);
    InvSlot(cfg, s, NoFocus, t.sid);
    if t.sid in s.entries {
      InvReady(cfg, s, NoFocus, t.sid);
      SameReady(cfg, s, ack, Rest(TableOf(s, ack), k), t.sid);
    }
    SameFresh(TableOf(s1, ack), now);
    SameFresh(TableOf(s1, !ack), now);
    if Resend(cfg, s1, ack, t.sid, t.srl, t.data) {
      var s2 := Dispatch(cfg, s1, t.sid, t.srl, t.data, now, o);
      var x := Timeout(t.sid, t.srl, t.data, now + k);
      DispatchFresh(cfg, s1, t.sid, t.srl, t.data, now, o);
      FreshArm(TableOf(s2, ack), k, x, now);
      FreshTrans(TableOf(s1, ack), TableOf(s2, ack), Arm(TableOf(s2, ack), k, x), now);
    }
  }

  lemma SameFresh<D(!new)>(t: Table<D>, now: real)
    ensures Fresh(t, t, now)
  {}

  // ---- One list, and one table ---------------------------------------------------------------

  /** Fire the first `m` timeouts of one list. */
  function Scan(cfg: Config, s: State, ack: bool, k: real, m: nat, now: real, o: Oracle): State
    requires Inv(cfg, s, NoFocus) && cfg.Valid() && now == s.clock
    requires k in TableOf(s, ack) && m <= |TableOf(s, ack)[k]|
    decreases m
  {
    if m == 0 then s
    else
      FireKeeps(cfg, s, ack, k, now, o);
      FireFresh(cfg, s, ack, k, now, o);
      Scan(cfg, Fire(cfg, s, ack, k, now, o), ack, k, m - 1, now, o)
  }

  lemma {:induction false} ScanKeeps(cfg: Config, s: State, ack: bool, k: real, m: nat, now: real, o: Oracle)
    requires Inv(cfg, s, NoFocus) && cfg.Valid() && now == s.clock
    requires k in TableOf(s, ack) && m <= |TableOf(s, ack)[k]|
    ensures var s' := Scan(cfg, s, ack, k, m, now, o);
            Inv(cfg, s', NoFocus) && s'.clock == now
    decreases m
  {
    if m > 0 {
      FireKeeps(cfg, s, ack, k, now, o);
      FireFresh(cfg, s, ack, k, now, o);
      FreshAt(Rest(TableOf(s, ack), k), TableOf(Fire(cfg, s, ack, k, now, o), ack), k, now);
      hide Inv, Fire, Fresh;
      ScanKeeps(cfg, Fire(cfg, s, ack, k, now, o), ack, k, m - 1, now, o);
    }
  }

  /** A table without the first `m` timeouts of one list. */
  function Dropped<D>(t: Table<D>, k: real, m: nat): Table<D>
    requires k in t && m <= |t[k]|
  {
    t[k := t[k][m..]]
  }

  lemma DroppedRest<D>(t: Table<D>, k: real, m: nat)
    requires k in t && 0 < m <= |t[k]|
    ensures k in Rest(t, k) && m - 1 <= |Rest(t, k)[k]|
    ensures Dropped(Rest(t, k), k, m - 1) == Dropped(t, k, m)
  {
    assert t[k][1..][m - 1..] == t[k][m..];
  }

  lemma DroppedNone<D>(t: Table<D>, k: real)
    requires k in t
    ensures Dropped(t, k, 0) == t
  {}

  /** A scan takes off exactly the first `m` timeouts of its list; everything else it leaves in
      place, and what it adds to any list is fresh. */
  lemma {:induction false} ScanFresh(cfg: Config, s: State, ack: bool, k: real, m: nat, now: real, o: Oracle)
    requires Inv(cfg, s, NoFocus) && cfg.Valid() && now == s.clock
    requires k in TableOf(s, ack) && m <= |TableOf(s, ack)[k]|
    ensures var s' := Scan(cfg, s, ack, k, m, now, o);
            && Fresh(Dropped(TableOf(s, ack), k, m), TableOf(s', ack), now)
            && Fresh(TableOf(s, !ack), TableOf(s', !ack), now) && s'.childT == s.childT
    decreases m
  {
    hide Inv, Fire, Fresh, Dropped, Rest;
    if m == 0 {
      DroppedNone(TableOf(s, ack), k);
      SameFresh(TableOf(s, ack), now);
      SameFresh(TableOf(s, !ack), now);
    } else {
      FireKeeps(cfg, s, ack, k, now, o);
      FireFresh(cfg, s, ack, k, now, o);
      DroppedRest(TableOf(s, ack), k, m);
      var s1 := Fire(cfg, s, ack, k, now, o);
      var s' := Scan(cfg, s, ack, k, m, now, o);
      FreshAt(Rest(TableOf(s, ack), k), TableOf(s1, ack), k, now);
      ScanFresh(cfg, s1, ack, k, m - 1, now, o);
      DroppedFresh(Rest(TableOf(s, ack), k), TableOf(s1, ack), k, m - 1, now);
      FreshTrans(Dropped(TableOf(s, ack), k, m), Dropped(TableOf(s1, ack), k, m - 1), TableOf(s', ack), now);
      FreshTrans(TableOf(s, !ack), TableOf(s1, !ack), TableOf(s', !ack), now);
    }
  }

  lemma FreshAt<D(!new)>(t: Table<D>, t': Table<D>, k: real, now: real)
    requires Fresh(t, t', now) && k in t
    ensures k in t' && t[k] <= t'[k] && |t[k]| <= |t'[k]|
  {}

  lemma DroppedFresh<D(!new)>(t: Table<D>, t': Table<D>, k: real, m: nat, now: real)
    requires Fresh(t, t', now) && k in t && m <= |t[k]|
    ensures k in t' && m <= |t'[k]| && Fresh(Dropped(t, k, m), Dropped(t', k, m), now)
  {
    assert t[k] <= t'[k];
    assert t[k][m..] <= t'[k][m..];
    var d: Table<D> := Dropped(t, k, m);
    var d': Table<D> := Dropped(t', k, m);
    forall k1, i | k1 in d' && |Get(d, k1, [])| <= i < |d'[k1]| ensures d'[k1][i].time == now + k1 {
      if k1 == k { assert d'[k1][i] == t'[k][i + m]; }
    }
  }
}
