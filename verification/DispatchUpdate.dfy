/** Moving an entry on, and removing finished entries up to the root, keeps the invariant. */
module DispatchUpdate {
  import opened Prelude
  import opened DispatchModel
  import opened DispatchInvariant
  import opened DispatchSend

  // ---- Replacing one entry -------------------------------------------------------------------

  /** `e'` has the links, results and counters of `e`; only its pending work may differ. */
  ghost predicate Moved(e: Entry, e': Entry) {
    && SameLinks(e, e') && e'.completedKids == e.completedKids
    && e'.completed == e.completed && e'.score == e.score && e'.retries == e.retries
    && e'.selected == e.selected && e'.c12n == e.c12n && e'.depth == e.depth && e'.dropAt == e.dropAt
  }

  /** The focus rests on this entry, or there is none. */
  predicate Only(f: Focus, sid: Sid, srl: Srl) {
    f.Focus? ==> f.On(sid, srl)
  }

  lemma PutHeld(cfg: Config, s: State, f: Focus, f': Focus, sid: Sid, srl: Srl, e: Entry)
    requires HeldAll(cfg, s, f) && Has(s, sid, srl)
    requires Only(f, sid, srl) && Only(f', sid, srl) && HeldOk(cfg, s, sid, srl, e, f')
    ensures HeldAll(cfg, Put(s, sid, srl, e), f')
  {
    var s' := Put(s, sid, srl, e);
    hide EntryOk, Armed;
    forall sid1, srl1 | Has(s', sid1, srl1) ensures HeldOk(cfg, s', sid1, srl1, At(s', sid1, srl1), f') {
      if sid1 != sid || srl1 != srl {
        assert HeldOk(cfg, s, sid1, srl1, At(s, sid1, srl1), f);
      }
    }
  }

  lemma MovedLog(cfg: Config, s: State, sid: Sid, srl: Srl, e: Entry)
    requires Has(s, sid, srl) && sid in s.completed && sid in s.log && LogOk(cfg, s, sid) && Moved(At(s, sid, srl), e)
    ensures LogOk(cfg, Put(s, sid, srl, e), sid)
  {
    var s' := Put(s, sid, srl, e);
    hide Once, Logged, Total;
    forall srl1, n | srl1 in s'.entries[sid] ensures Logged(s'.log[sid], srl1, n) <==> Finishes(cfg, s'.entries[sid][srl1], n) {
      assert Finishes(cfg, s'.entries[sid][srl1], n) == Finishes(cfg, s.entries[sid][srl1], n);
    }
  }

  lemma MovedAsked(cfg: Config, s: State, sid: Sid, srl: Srl, e: Entry)
    requires Has(s, sid, srl) && sid in s.completed && sid in s.log && sid in s.asked && AskedOk(cfg, s, sid) && Moved(At(s, sid, srl), e)
    ensures AskedOk(cfg, Put(s, sid, srl, e), sid)
  {
    hide SaidDrop, Served;
  }

  lemma MovedLinks(s: State, sid: Sid, srl: Srl, e: Entry)
    requires Has(s, sid, srl) && Linked(s.entries[sid]) && Moved(At(s, sid, srl), e)
    ensures var files := Put(s, sid, srl, e).entries[sid];
            && Linked(files) && files != map[] && files.Keys == s.entries[sid].Keys
            && forall x | x in files :: files[x].completedKids == s.entries[sid][x].completedKids
  {
    LinkedAlike(s.entries[sid], Put(s, sid, srl, e).entries[sid]);
    assert srl in Put(s, sid, srl, e).entries[sid];
  }

  lemma MovedOne(cfg: Config, s: State, sid: Sid, srl: Srl, e: Entry)
    requires SubOk(cfg, s, sid) && Has(s, sid, srl) && Moved(At(s, sid, srl), e)
    ensures SubOk(cfg, Put(s, sid, srl, e), sid)
  {
    var s' := Put(s, sid, srl, e);
    MovedLog(cfg, s, sid, srl, e);
    MovedAsked(cfg, s, sid, srl, e);
    MovedLinks(s, sid, srl, e);
    PutSame(s, sid, srl, e);
    hide LogOk, AskedOk, Best, Linked, Keys, Put, Moved;
  }

  lemma MovedSub(cfg: Config, s: State, sid: Sid, srl: Srl, e: Entry)
    requires SubAll(cfg, s) && Has(s, sid, srl) && Moved(At(s, sid, srl), e)
    ensures SubAll(cfg, Put(s, sid, srl, e))
  {
    var s' := Put(s, sid, srl, e);
    hide SubOk, Moved;
    forall sid1 ensures Slot(cfg, s', sid1) {
      assert Slot(cfg, s, sid1);
      if sid1 == sid { MovedOne(cfg, s, sid, srl, e); } else { SlotElsewhere(cfg, s, s', sid1); }
    }
  }

  ghost predicate SameIn<T(!new)>(m: map<Sid, T>, m': map<Sid, T>, sid: Sid) {
    (sid in m <==> sid in m') && (sid in m ==> m[sid] == m'[sid])
  }

  ghost predicate SameOn(s: State, s': State, sid: Sid) {
    && SameIn(s.entries, s'.entries, sid) && SameIn(s.completed, s'.completed, sid)
    && SameIn(s.results, s'.results, sid) && SameIn(s.errors, s'.errors, sid)
    && SameIn(s.score, s'.score, sid) && SameIn(s.log, s'.log, sid)
    && SameIn(s.asked, s'.asked, sid)
  }

  /** What is said of one submission reads that submission only. */
  lemma SlotElsewhere(cfg: Config, s: State, s': State, sid: Sid)
    requires Slot(cfg, s, sid) && SameOn(s, s', sid)
    ensures Slot(cfg, s', sid)
  {
    hide Once, Linked, Best, Keys, Total, Logged, Finishes, SaidDrop, Served, AsAsked;
  }

  lemma MovedSends(cfg: Config, s: State, sid: Sid, srl: Srl, e: Entry)
    requires SendsOk(cfg, s) && Has(s, sid, srl) && Moved(At(s, sid, srl), e)
    ensures SendsOk(cfg, Put(s, sid, srl, e))
  {
    var s' := Put(s, sid, srl, e);
    forall sid1, srl1, sid2, srl2 ensures SameBorn(s', sid1, srl1, sid2, srl2) {
      assert SameBorn(s, sid1, srl1, sid2, srl2);
    }
    forall sid1, srl1 | Has(s', sid1, srl1) ensures SentOk(cfg, s', At(s', sid1, srl1)) {
      assert SentOk(cfg, s, At(s, sid1, srl1));
    }
  }

  lemma MovedKeeps(cfg: Config, s: State, f: Focus, f': Focus, sid: Sid, srl: Srl, e: Entry)
    requires Inv(cfg, s, f) && Has(s, sid, srl) && Moved(At(s, sid, srl), e)
    requires Only(f, sid, srl) && Only(f', sid, srl) && HeldOk(cfg, s, sid, srl, e, f')
    ensures Inv(cfg, Put(s, sid, srl, e), f')
  {
    hide SubAll, HeldAll, SendsOk;
    PutHeld(cfg, s, f, f', sid, srl, e);
    MovedSub(cfg, s, sid, srl, e);
    MovedSends(cfg, s, sid, srl, e);
    hide Balanced;
    SameBalance(cfg, s, Put(s, sid, srl, e));
  }

  // ---- Walking the stages --------------------------------------------------------------------

  predicate Idle(e: Entry, st: nat)
    requires st < |e.acked| == |e.dispatched| == |e.outstanding|
  {
    e.acked[st] == {} && e.dispatched[st] == {} && e.outstanding[st] == {}
  }

  /** The stage walk stops at Done or at the first stage with work left. */
  lemma {:induction false} NextStageStops(cfg: Config, e: Entry, stage: nat)
    requires Shaped(cfg, e) && stage <= cfg.Done()
    ensures var r := NextStage(cfg, e, stage);
            && 1 <= r && (r < cfg.Done() ==> !Idle(e, r))
            && forall st | Max(stage, 1) <= st < r :: Idle(e, st)
    decreases cfg.Done() - stage
  {
    if stage == 0 || (stage != cfg.Done() && Idle(e, stage)) {
      NextStageStops(cfg, e, stage + 1);
    }
  }

  /** Moving a consistent entry to its next stage, and its outstanding services there to dispatched. */
  lemma StageMoved(cfg: Config, e: Entry)
    requires EntryOk(cfg, e) && Shaped(cfg, e) && cfg.Valid()
    ensures var r := NextStage(cfg, e, e.stage);
            var todo := e.outstanding[r];
            && (r == cfg.Done() ==> EntryOk(cfg, e.(stage := r)))
            && (e.dispatched[r] != {} ==> r == e.stage && EntryOk(cfg, e.(stage := r)))
            && (r < cfg.Done() && e.dispatched[r] == {} ==>
                  var e1 := e.(stage := r, dispatched := e.dispatched[r := todo], outstanding := e.outstanding[r := {}]);
                  EntryOk(cfg, e1) && e1.dispatched[r] + e1.acked[r] != {})
  {
    NextStageStops(cfg, e, e.stage);
    var r := NextStage(cfg, e, e.stage);
    assert StageOk(cfg, e, r);
    assert r == cfg.Done() ==> Chosen(cfg, e.selected, r) == {};
    if r == cfg.Done() {
      forall st | 0 <= st <= cfg.Done() ensures StageOk(cfg, e.(stage := r), st) { StageShift(cfg, e, r, st); }
    } else if e.dispatched[r] == {} {
      var e1 := e.(stage := r, dispatched := e.dispatched[r := e.outstanding[r]], outstanding := e.outstanding[r := {}]);
      forall st | 0 <= st <= cfg.Done() ensures StageOk(cfg, e1, st) {
        if st != r { StageShift(cfg, e, r, st); }
      }
    }
  }

  lemma StageShift(cfg: Config, e: Entry, r: nat, st: nat)
    requires EntryOk(cfg, e) && cfg.Valid() && e.stage <= r <= cfg.Done() && st <= cfg.Done()
    requires forall st | Max(e.stage, 1) <= st < r :: Idle(e, st)
    requires st == r ==> e.outstanding[r] == {}
    ensures StageOk(cfg, e.(stage := r), st)
  {
    assert StageOk(cfg, e, st);
    assert Chosen(cfg, e.selected, 0) == {};
    if Max(e.stage, 1) <= st < r { assert Idle(e, st); }
  }

  // ---- Finishing an entry --------------------------------------------------------------------

  /** The best score after one more file, with total `e.score`, is completed. */
  lemma BestAfter(log: seq<Finished>, done: map<Srl, C12n>, best: Option<int>, srl: Srl, e: Entry)
    requires Best(log, done, best) && srl !in done && e.score == Total(log, srl)
    ensures Best(log, done[srl := e.c12n], if Better(best, e.score) then Some(e.score) else best)
  {
    var done' := done[srl := e.c12n];
    var best' := if Better(best, e.score) then Some(e.score) else best;
    hide Total;
    assert srl in done';
    if !Better(best, e.score) {
      var f :| f in done && Total(log, f) == best.value;
      assert f in done' && Total(log, f) == best'.value;
    }
    forall f | f in done' ensures Total(log, f) <= best'.value {
      if f != srl { assert Total(log, f) <= best.value; }
    }
  }

  /** The finished entry may leave: no child is outstanding, and its parent, if any, is held. */
  ghost predicate Leaving(s: State, sid: Sid, srl: Srl) {
    && Has(s, sid, srl) && sid in s.completed && sid in s.score
    && At(s, sid, srl).outstandingKids == {}
    && (At(s, sid, srl).parent.Some? ==>
          At(s, sid, srl).parent != Some(srl) && Has(s, sid, At(s, sid, srl).parent.value))
  }

  /** The state in which `srl` has moved to completed and its parent, if any, has been told. */
  function Told(s: State, sid: Sid, srl: Srl): (r: State)
    requires Leaving(s, sid, srl)
    ensures sid in r.entries
  {
    var s1 := Finish(s, sid, srl);
    match At(s, sid, srl).parent
    case Some(p) => Put(s1, sid, p, KidDone(At(s1, sid, p), srl))
    case None => s1
  }

  /** The entry to look at next: the parent. */
  function Upward(s: State, sid: Sid, srl: Srl): Focus
    requires Has(s, sid, srl)
  {
    match At(s, sid, srl).parent
    case Some(p) => Focus(sid, p, {})
    case None => NoFocus
  }

  /** What telling the parent leaves alone, outside the entries. */
  ghost predicate SameAround(s: State, r: State) {
    && r.results == s.results && r.errors == s.errors && r.log == s.log && r.asked == s.asked && r.storage == s.storage
    && r.ackT == s.ackT && r.svcT == s.svcT && r.childT == s.childT && r.pending == s.pending
    && r.sent == s.sent && r.next == s.next && r.clock == s.clock && r.started == s.started
    && r.lastCheck == s.lastCheck && r.queueSize == s.queueSize
  }

  /** What it does to the submission. */
  ghost predicate ToldSid(s: State, r: State, sid: Sid, srl: Srl)
    requires Leaving(s, sid, srl)
  {
    var e := At(s, sid, srl);
    && sid in r.entries && sid in r.completed && sid in r.score
    && (forall x :: x in r.entries[sid] <==> x in s.entries[sid] && x != srl)
    && r.completed[sid] == s.completed[sid][srl := e.c12n]
    && r.score[sid] == if Better(s.score[sid], e.score) then Some(e.score) else s.score[sid]
  }

  lemma ToldFrame(s: State, sid: Sid, srl: Srl)
    requires Leaving(s, sid, srl)
    ensures SameAround(s, Told(s, sid, srl)) && ToldSid(s, Told(s, sid, srl), sid, srl)
  {
    hide ToldSid, SameAround;
    ToldAround(s, sid, srl);
    FinishSid(s, sid, srl);
    PutSid(s, sid, srl);
  }

  lemma ToldAround(s: State, sid: Sid, srl: Srl)
    requires Leaving(s, sid, srl)
    ensures SameAround(s, Told(s, sid, srl))
  {
    FinishAround(s, sid, srl);
    hide Finish;
    if At(s, sid, srl).parent.Some? {
      var s1, p := Finish(s, sid, srl), At(s, sid, srl).parent.value;
      PutSame(s1, sid, p, KidDone(At(s1, sid, p), srl));
    }
  }

  lemma FinishAround(s: State, sid: Sid, srl: Srl)
    requires Leaving(s, sid, srl)
    ensures var r := Finish(s, sid, srl); SameAround(s, r) && sid in r.entries
    ensures At(s, sid, srl).parent.Some? ==> Has(Finish(s, sid, srl), sid, At(s, sid, srl).parent.value)
  {
    hide Better;
  }

  lemma FinishSid(s: State, sid: Sid, srl: Srl)
    requires Leaving(s, sid, srl)
    ensures ToldSid(s, Finish(s, sid, srl), sid, srl)
  {}

  lemma PutSid(s: State, sid: Sid, srl: Srl)
    requires Leaving(s, sid, srl) && ToldSid(s, Finish(s, sid, srl), sid, srl)
    ensures ToldSid(s, Told(s, sid, srl), sid, srl)
  {
    hide Finish;
    if At(s, sid, srl).parent.Some? {
      var p := At(s, sid, srl).parent.value;
      assert p in Finish(s, sid, srl).entries[sid];
    }
  }

  lemma ToldOther(s: State, sid: Sid, srl: Srl, sid1: Sid)
    requires Leaving(s, sid, srl) && sid1 != sid
    ensures SameOn(s, Told(s, sid, srl), sid1)
  {
    var s1 := Finish(s, sid, srl);
    assert SameOn(s, s1, sid1);
  }

  /** What it does to one entry: the parent has one child less, the others stay. */
  lemma ToldEntry(s: State, sid: Sid, srl: Srl, sid1: Sid, srl1: Srl)
    requires Leaving(s, sid, srl) && Has(Told(s, sid, srl), sid1, srl1)
    ensures Has(s, sid1, srl1) && (sid1 != sid || srl1 != srl)
    ensures At(Told(s, sid, srl), sid1, srl1)
            == if sid1 == sid && At(s, sid, srl).parent == Some(srl1) then KidDone(At(s, sid1, srl1), srl) else At(s, sid1, srl1)
  {
    FinishEntry(s, sid, srl, sid1, srl1);
    hide Finish, KidDone;
    if At(s, sid, srl).parent.Some? {
      var s1, p := Finish(s, sid, srl), At(s, sid, srl).parent.value;
      FinishEntry(s, sid, srl, sid, p);
      PutAt(s1, sid, p, KidDone(At(s1, sid, p), srl), sid1, srl1);
    }
  }

  lemma FinishEntry(s: State, sid: Sid, srl: Srl, sid1: Sid, srl1: Srl)
    requires Leaving(s, sid, srl)
    ensures sid in Finish(s, sid, srl).entries
    ensures Has(Finish(s, sid, srl), sid1, srl1) <==> Has(s, sid1, srl1) && (sid1 != sid || srl1 != srl)
    ensures Has(Finish(s, sid, srl), sid1, srl1) ==> At(Finish(s, sid, srl), sid1, srl1) == At(s, sid1, srl1)
  {
    hide Better;
  }

  lemma ToldLinked(s: State, sid: Sid, srl: Srl)
    requires Leaving(s, sid, srl) && Linked(s.entries[sid])
    ensures sid in Told(s, sid, srl).entries
    ensures Linked(Told(s, sid, srl).entries[sid])
    ensures At(s, sid, srl).parent.Some? ==> Told(s, sid, srl).entries[sid] != map[]
  {
    var files, files' := s.entries[sid], Told(s, sid, srl).entries[sid];
    if At(s, sid, srl).parent.Some? {
      WithoutLinked(files, srl);
      assert files' == Without(files, srl);
      assert At(s, sid, srl).parent.value in files';
    } else {
      forall c ensures Up(files', c) {
        assert Up(files, c);
        if c in files' && files[c].parent == Some(srl) { assert false; }
      }
      forall q, c ensures Down(files', q, c) { assert Down(files, q, c); }
    }
  }

  lemma ToldLog(cfg: Config, s: State, sid: Sid, srl: Srl)
    requires SubOk(cfg, s, sid) && Leaving(s, sid, srl)
    ensures sid in Told(s, sid, srl).entries && sid in Told(s, sid, srl).completed && sid in Told(s, sid, srl).log
    ensures LogOk(cfg, Told(s, sid, srl), sid)
  {
    hide Once, Logged, Total, Best, Linked, Keys, Told, Finishes;
    var s' := Told(s, sid, srl);
    ToldFrame(s, sid, srl);
    forall srl1 | srl1 in s'.entries[sid]
      ensures s'.entries[sid][srl1].score == Total(s'.log[sid], srl1)
      ensures forall n :: Logged(s'.log[sid], srl1, n) <==> Finishes(cfg, s'.entries[sid][srl1], n)
    {
      ToldEntry(s, sid, srl, sid, srl1);
      KidFinishes(cfg, At(s, sid, srl1), srl);
    }
  }

  lemma KidFinishes(cfg: Config, e: Entry, kid: Srl)
    ensures forall n :: Finishes(cfg, KidDone(e, kid), n) == Finishes(cfg, e, n)
    ensures KidDone(e, kid).score == e.score
  {}

  lemma ToldBest(cfg: Config, s: State, sid: Sid, srl: Srl)
    requires SubOk(cfg, s, sid) && Leaving(s, sid, srl)
    ensures sid in Told(s, sid, srl).log && sid in Told(s, sid, srl).completed && sid in Told(s, sid, srl).score
    ensures var s' := Told(s, sid, srl);
            Best(s'.log[sid], s'.completed[sid], s'.score[sid])
  {
    hide Best, Linked, Keys, Once, Logged, Finishes, Told;
    ToldFrame(s, sid, srl);
    BestAfter(s.log[sid], s.completed[sid], s.score[sid], srl, At(s, sid, srl));
  }

  lemma ToldDone(cfg: Config, s: State, sid: Sid, srl: Srl)
    requires SubOk(cfg, s, sid) && Leaving(s, sid, srl)
    ensures sid in Told(s, sid, srl).entries && sid in Told(s, sid, srl).completed
    ensures var s' := Told(s, sid, srl);
            && (forall srl | srl in s'.entries[sid] :: srl !in s'.completed[sid])
            && (forall srl, c | srl in s'.entries[sid] && c in s'.entries[sid][srl].completedKids :: c in s'.completed[sid])
  {
    hide Once, Logged, Total, Best, Linked, Keys, Finishes, LogOk, Told;
    ToldFrame(s, sid, srl);
    var s' := Told(s, sid, srl);
    forall srl1 | srl1 in s'.entries[sid]
      ensures srl1 !in s'.completed[sid] && forall c | c in s'.entries[sid][srl1].completedKids :: c in s'.completed[sid]
    {
      ToldEntry(s, sid, srl, sid, srl1);
    }
  }

  lemma ToldSub(cfg: Config, s: State, sid: Sid, srl: Srl)
    requires SubOk(cfg, s, sid) && Leaving(s, sid, srl) && Walked(cfg, At(s, sid, srl)) && sid in Told(s, sid, srl).entries
    requires Told(s, sid, srl).entries[sid] != map[]
    ensures SubOk(cfg, Told(s, sid, srl), sid)
  {
    hide Once, Logged, Total, Best, Linked, Keys, Finishes, LogOk, AskedOk, Told, Walked;
    ToldFrame(s, sid, srl);
    ToldLinked(s, sid, srl);
    ToldAsked(cfg, s, sid, srl);
    ToldLog(cfg, s, sid, srl);
    ToldBest(cfg, s, sid, srl);
    ToldDone(cfg, s, sid, srl);
  }

  /** A file that has walked all its stages has been through the services it was submitted for. */
  lemma DoneServed(cfg: Config, log: seq<Finished>, srl: Srl, e: Entry, m: Submission)
    requires cfg.Valid() && EntryOk(cfg, e) && e.stage == cfg.Done() && AsAsked(cfg, log, srl, e, m)
    requires forall n :: Logged(log, srl, n) <==> Finishes(cfg, e, n)
    ensures Served(cfg, log, srl, m)
  {
    hide Logged, SaidDrop;
    forall n ensures Logged(log, srl, n) <==> n in m.select && n in cfg.services && !DroppedBefore(cfg, log, srl, cfg.services[n].stage) {
      assert Logged(log, srl, n) <==> Finishes(cfg, e, n);
      if n in cfg.services {
        var st := cfg.services[n].stage;
        assert StageOk(cfg, e, st);
        DropBefore(cfg, log, srl, e, st);
      }
    }
  }

  lemma DropBefore(cfg: Config, log: seq<Finished>, srl: Srl, e: Entry, st: nat)
    requires forall d: nat :: SaidDrop(cfg, log, srl, d) <==> e.dropAt == Some(d)
    ensures DroppedBefore(cfg, log, srl, st) <==> e.dropAt.Some? && e.dropAt.value < st
  {
    hide SaidDrop;
    if e.dropAt.Some? { assert SaidDrop(cfg, log, srl, e.dropAt.value); }
  }

  /** The finished entry has walked all its stages. */
  ghost predicate Walked(cfg: Config, e: Entry) {
    cfg.Valid() && EntryOk(cfg, e) && e.stage == cfg.Done()
  }

  lemma ToldServed(cfg: Config, s: State, sid: Sid, srl: Srl)
    requires SubOk(cfg, s, sid) && srl in s.entries[sid] && Walked(cfg, At(s, sid, srl))
    ensures srl in s.asked[sid] && At(s, sid, srl).c12n == s.asked[sid][srl].c12n && Served(cfg, s.log[sid], srl, s.asked[sid][srl])
  {
    hide Once, Logged, Total, Best, Linked, Keys, AsAsked, Finishes, Served, EntryOk;
    assert srl in s.asked[sid];
    DoneServed(cfg, s.log[sid], srl, At(s, sid, srl), s.asked[sid][srl]);
    AskedC12n(cfg, s.log[sid], srl, At(s, sid, srl), s.asked[sid][srl]);
  }

  /** Moving one served file from the held to the completed ones. */
  lemma AskedMoves(cfg: Config, s: State, s': State, sid: Sid, srl: Srl, c12n: C12n)
    requires sid in s.entries && sid in s.completed && sid in s.log && sid in s.asked && AskedOk(cfg, s, sid)
    requires sid in s'.entries && sid in s'.completed && s'.log == s.log && s'.asked == s.asked
    requires srl in s.entries[sid] && forall x :: x in s'.entries[sid] <==> x in s.entries[sid] && x != srl
    requires s'.completed[sid] == s.completed[sid][srl := c12n]
    requires srl in s.asked[sid] && c12n == s.asked[sid][srl].c12n && Served(cfg, s.log[sid], srl, s.asked[sid][srl])
    requires forall x | x in s'.entries[sid] && x in s.asked[sid] :: AsAsked(cfg, s.log[sid], x, s'.entries[sid][x], s.asked[sid][x])
    ensures AskedOk(cfg, s', sid)
  {
    hide AsAsked, Served;
  }

  lemma ToldAsked(cfg: Config, s: State, sid: Sid, srl: Srl)
    requires SubOk(cfg, s, sid) && Leaving(s, sid, srl) && Walked(cfg, At(s, sid, srl))
    ensures var s' := Told(s, sid, srl);
            sid in s'.entries && sid in s'.completed && sid in s'.log && sid in s'.asked && AskedOk(cfg, s', sid)
  {
    hide LogOk, Best, Linked, Keys, Told, AsAsked, Served, Walked;
    ToldServed(cfg, s, sid, srl);
    ToldFrame(s, sid, srl);
    var s' := Told(s, sid, srl);
    forall x | x in s'.entries[sid] && x in s.asked[sid] ensures AsAsked(cfg, s.log[sid], x, s'.entries[sid][x], s.asked[sid][x]) {
      ToldKidAsked(cfg, s, sid, srl, x);
    }
    hide AskedOk;
    AskedMoves(cfg, s, s', sid, srl, At(s, sid, srl).c12n);
  }

  lemma ToldKidAsked(cfg: Config, s: State, sid: Sid, srl: Srl, x: Srl)
    requires SubOk(cfg, s, sid) && Leaving(s, sid, srl) && Has(Told(s, sid, srl), sid, x) && x in s.asked[sid]
    ensures AsAsked(cfg, s.log[sid], x, At(Told(s, sid, srl), sid, x), s.asked[sid][x])
  {
    hide LogOk, Best, Linked, Keys, Told, AsAsked, Served;
    ToldEntry(s, sid, srl, sid, x);
    assert AsAsked(cfg, s.log[sid], x, s.entries[sid][x], s.asked[sid][x]);
    KidAsked(cfg, s.log[sid], x, s.entries[sid][x], s.asked[sid][x], srl);
  }

  lemma AskedC12n(cfg: Config, log: seq<Finished>, srl: Srl, e: Entry, m: Submission)
    requires AsAsked(cfg, log, srl, e, m)
    ensures e.c12n == m.c12n
  {}

  lemma KidAsked(cfg: Config, log: seq<Finished>, srl: Srl, e: Entry, m: Submission, kid: Srl)
    requires AsAsked(cfg, log, srl, e, m)
    ensures AsAsked(cfg, log, srl, KidDone(e, kid), m)
  {
    hide SaidDrop;
  }

  lemma KidDoneOk(cfg: Config, e: Entry, kid: Srl)
    requires EntryOk(cfg, e)
    ensures EntryOk(cfg, KidDone(e, kid))
  {
    forall st | 0 <= st <= cfg.Done() ensures StageOk(cfg, KidDone(e, kid), st) { assert StageOk(cfg, e, st); }
  }

  /** Moving the focus from one entry to another does not touch a third one. */
  lemma Refocused(cfg: Config, s: State, r: State, sid: Sid, srl: Srl, e: Entry, f: Focus, f': Focus)
    requires HeldOk(cfg, s, sid, srl, e, f) && !f.On(sid, srl) && f'.Todo(sid, srl) == {} && SameAround(s, r)
    ensures HeldOk(cfg, r, sid, srl, e, f')
  {
    hide EntryOk, Armed;
  }

  lemma KidDoneHeld(cfg: Config, s: State, r: State, sid: Sid, srl: Srl, e: Entry, kid: Srl, f: Focus)
    requires HeldOk(cfg, s, sid, srl, e, f) && !f.On(sid, srl) && SameAround(s, r)
    ensures HeldOk(cfg, r, sid, srl, KidDone(e, kid), Focus(sid, srl, {}))
  {
    KidDoneOk(cfg, e, kid);
    hide EntryOk, Armed;
  }

  lemma ToldHeld(cfg: Config, s: State, sid: Sid, srl: Srl)
    requires HeldAll(cfg, s, Focus(sid, srl, {})) && Leaving(s, sid, srl)
    ensures HeldAll(cfg, Told(s, sid, srl), Upward(s, sid, srl))
  {
    hide Told, HeldOk, SameAround;
    var s', f := Told(s, sid, srl), Focus(sid, srl, {});
    ToldFrame(s, sid, srl);
    forall sid1, srl1 | Has(s', sid1, srl1) ensures HeldOk(cfg, s', sid1, srl1, At(s', sid1, srl1), Upward(s, sid, srl)) {
      ToldEntry(s, sid, srl, sid1, srl1);
      var e := At(s, sid1, srl1);
      assert HeldOk(cfg, s, sid1, srl1, e, f);
      if sid1 == sid && At(s, sid, srl).parent == Some(srl1) {
        KidDoneHeld(cfg, s, s', sid1, srl1, e, srl, f);
      } else {
        Refocused(cfg, s, s', sid1, srl1, e, f, Upward(s, sid, srl));
      }
    }
  }

  /** Counters survive when entries disappear, or change in their children only. */
  lemma FewerSends(cfg: Config, s: State, s': State)
    requires SendsOk(cfg, s) && s'.sent == s.sent && s'.next == s.next
    requires forall sid, srl | Has(s', sid, srl) ::
      Has(s, sid, srl) && At(s', sid, srl).born == At(s, sid, srl).born && At(s', sid, srl).retries == At(s, sid, srl).retries
    ensures SendsOk(cfg, s')
  {
    forall sid1, srl1, sid2, srl2 ensures SameBorn(s', sid1, srl1, sid2, srl2) {
      assert SameBorn(s, sid1, srl1, sid2, srl2);
    }
    forall sid1, srl1 | Has(s', sid1, srl1) ensures SentOk(cfg, s', At(s', sid1, srl1)) {
      assert SentOk(cfg, s, At(s, sid1, srl1));
    }
  }

  lemma ToldSends(cfg: Config, s: State, sid: Sid, srl: Srl)
    requires SendsOk(cfg, s) && Leaving(s, sid, srl)
    ensures SendsOk(cfg, Told(s, sid, srl))
  {
    hide SendsOk, Told;
    var s' := Told(s, sid, srl);
    ToldFrame(s, sid, srl);
    forall sid1, srl1 | Has(s', sid1, srl1)
      ensures Has(s, sid1, srl1) && At(s', sid1, srl1).born == At(s, sid1, srl1).born
              && At(s', sid1, srl1).retries == At(s, sid1, srl1).retries
    {
      ToldEntry(s, sid, srl, sid1, srl1);
    }
    FewerSends(cfg, s, s');
  }

  lemma ToldElsewhere(cfg: Config, s: State, sid: Sid, srl: Srl, sid1: Sid)
    requires SubAll(cfg, s) && Leaving(s, sid, srl) && sid1 != sid
    ensures Slot(cfg, Told(s, sid, srl), sid1)
  {
    hide Told, SubOk, SameOn;
    assert Slot(cfg, s, sid1);
    ToldOther(s, sid, srl, sid1);
    SlotElsewhere(cfg, s, Told(s, sid, srl), sid1);
  }

  lemma ToldSubAll(cfg: Config, s: State, sid: Sid, srl: Srl)
    requires SubAll(cfg, s) && Leaving(s, sid, srl) && Walked(cfg, At(s, sid, srl)) && Told(s, sid, srl).entries[sid] != map[]
    ensures SubAll(cfg, Told(s, sid, srl))
  {
    var s' := Told(s, sid, srl);
    hide SubOk, Told, Walked;
    forall sid1 ensures Slot(cfg, s', sid1) {
      assert Slot(cfg, s, sid1);
      if sid1 == sid { ToldSub(cfg, s, sid, srl); } else { ToldElsewhere(cfg, s, sid, srl, sid1); }
    }
  }

  lemma ToldRest(cfg: Config, s: State, sid: Sid, srl: Srl)
    requires Leaving(s, sid, srl) && TablesOk(cfg, s) && Balanced(cfg, s)
    ensures TablesOk(cfg, Told(s, sid, srl)) && Balanced(cfg, Told(s, sid, srl))
  {
    hide Timely, Known, Balanced, Told;
    ToldFrame(s, sid, srl);
    forall sid1 ensures sid1 in Told(s, sid, srl).entries <==> sid1 in s.entries {
      if sid1 != sid { ToldOther(s, sid, srl, sid1); }
    }
    SameBalance(cfg, s, Told(s, sid, srl));
  }

  lemma MayLeave(cfg: Config, s: State, f: Focus, sid: Sid, srl: Srl)
    requires Inv(cfg, s, f) && Has(s, sid, srl) && At(s, sid, srl).outstandingKids == {}
    ensures Leaving(s, sid, srl)
  {
    assert Slot(cfg, s, sid);
    assert Up(s.entries[sid], srl);
  }

  lemma ToldStays(s: State, sid: Sid, srl: Srl)
    requires Leaving(s, sid, srl) && Linked(s.entries[sid])
    ensures sid in Told(s, sid, srl).entries && Told(s, sid, srl).clock == s.clock
    ensures At(s, sid, srl).parent.Some? ==> Told(s, sid, srl).entries[sid] != map[] && Upward(s, sid, srl) == Focus(sid, At(s, sid, srl).parent.value, {})
    ensures At(s, sid, srl).parent.None? ==> Upward(s, sid, srl) == NoFocus
  {
    hide Told;
    ToldFrame(s, sid, srl);
    ToldLinked(s, sid, srl);
  }

  lemma ToldKeeps(cfg: Config, s: State, sid: Sid, srl: Srl)
    requires Inv(cfg, s, Focus(sid, srl, {})) && Leaving(s, sid, srl) && Told(s, sid, srl).entries[sid] != map[]
    requires Walked(cfg, At(s, sid, srl))
    ensures Inv(cfg, Told(s, sid, srl), Upward(s, sid, srl))
  {
    hide Walked, SubAll, HeldAll, SendsOk, TablesOk, Balanced, Told;
    ToldSubAll(cfg, s, sid, srl);
    ToldHeld(cfg, s, sid, srl);
    ToldSends(cfg, s, sid, srl);
    ToldRest(cfg, s, sid, srl);
  }

  // ---- Closing a submission ------------------------------------------------------------------

  /** Recording that a root is complete changes nothing else. */
  lemma CompletePushed(cfg: Config, s: State, f: Focus, m: StorageMsg)
    requires Inv(cfg, s, f) && m.Complete?
    ensures Inv(cfg, s.(storage := s.storage + [m]), f)
  {
    var s' := s.(storage := s.storage + [m]);
    FinalsAppend(s.storage, m);
    assert Balanced(cfg, s') by { forall sid ensures Tally(s', sid) { assert Tally(s, sid); } }
    hide Balanced;
    hide SubOk, HeldOk, SentOk, Timely, Known;
    forall sid ensures Slot(cfg, s', sid) { assert Slot(cfg, s, sid); SlotElsewhere(cfg, s, s', sid); }
    hide Slot;
    forall sid, srl | Has(s', sid, srl) ensures HeldOk(cfg, s', sid, srl, At(s', sid, srl), f) {
      SameTables(cfg, s, s', sid, srl, At(s, sid, srl), f);
    }
    hide HeldAll;
    FewerSends(cfg, s, s');
  }

  lemma SameTables(cfg: Config, s: State, s': State, sid: Sid, srl: Srl, e: Entry, f: Focus)
    requires HeldOk(cfg, s, sid, srl, e, f)
    requires s'.ackT == s.ackT && s'.svcT == s.svcT && s'.childT == s.childT && s'.pending == s.pending
    ensures HeldOk(cfg, s', sid, srl, e, f)
  {
    hide EntryOk, Armed;
  }

  /** The state after the last root of a submission has left. */
  function Closed(s: State, sid: Sid, srl: Srl, m: StorageMsg): State
    requires Leaving(s, sid, srl) && sid in s.results && sid in s.errors && sid in s.log && sid in s.asked && sid in s.asked
  {
    var s1 := Told(s, sid, srl);
    Close(s1.(storage := s1.storage + [m]), sid, srl, At(s, sid, srl))
  }

  /** The closed submission is in no dictionary any more. */
  ghost predicate Absent(s: State, sid: Sid) {
    && sid !in s.entries && sid !in s.completed && sid !in s.results && sid !in s.errors && sid !in s.score && sid !in s.log && sid !in s.asked
  }

  lemma ClosedFrame(s: State, sid: Sid, srl: Srl, m: StorageMsg)
    requires Leaving(s, sid, srl) && sid in s.results && sid in s.errors && sid in s.log && sid in s.asked && sid in s.asked
    ensures var r := Closed(s, sid, srl, m);
            && Absent(r, sid) && SameAround(s, r.(results := s.results, errors := s.errors, log := s.log, asked := s.asked, storage := s.storage))
  {
    hide Told;
    ToldFrame(s, sid, srl);
  }

  lemma ClosedStorage(s: State, sid: Sid, srl: Srl, m: StorageMsg)
    requires Leaving(s, sid, srl) && sid in s.results && sid in s.errors && sid in s.log && sid in s.asked
    ensures var s1 := Told(s, sid, srl);
            && sid in s1.completed && sid in s1.results && sid in s1.errors && sid in s1.score && sid in s1.log && sid in s1.asked
            && var s2 := s1.(storage := s1.storage + [m]);
               Closed(s, sid, srl, m).storage == (s.storage + [m]) + [FinalRecord(s2, sid, srl, At(s, sid, srl))]
  {
    hide Told, FinalRecord;
    ToldFrame(s, sid, srl);
  }

  lemma ClosedOther(s: State, sid: Sid, srl: Srl, m: StorageMsg, sid1: Sid)
    requires Leaving(s, sid, srl) && sid in s.results && sid in s.errors && sid in s.log && sid in s.asked && sid1 != sid
    ensures SameOn(s, Closed(s, sid, srl, m), sid1)
  {
    hide Told;
    ToldFrame(s, sid, srl);
    ToldOther(s, sid, srl, sid1);
  }

  lemma ClosedEntry(s: State, sid: Sid, srl: Srl, m: StorageMsg, sid1: Sid, srl1: Srl)
    requires Leaving(s, sid, srl) && sid in s.results && sid in s.errors && sid in s.log && sid in s.asked && Has(Closed(s, sid, srl, m), sid1, srl1)
    ensures sid1 != sid && Has(s, sid1, srl1) && At(Closed(s, sid, srl, m), sid1, srl1) == At(s, sid1, srl1)
  {
    hide Closed;
    ClosedFrame(s, sid, srl, m);
    ClosedOther(s, sid, srl, m, sid1);
  }

  lemma ClosedSub(cfg: Config, s: State, sid: Sid, srl: Srl, m: StorageMsg)
    requires SubAll(cfg, s) && Leaving(s, sid, srl) && sid in s.results && sid in s.errors && sid in s.log && sid in s.asked && sid in s.asked
    ensures SubAll(cfg, Closed(s, sid, srl, m))
  {
    hide SubOk, Closed, SameOn, SameAround;
    var s' := Closed(s, sid, srl, m);
    ClosedFrame(s, sid, srl, m);
    forall sid1 ensures Slot(cfg, s', sid1) {
      assert Slot(cfg, s, sid1);
      if sid1 != sid {
        ClosedOther(s, sid, srl, m, sid1);
        SlotElsewhere(cfg, s, s', sid1);
      }
    }
  }

  lemma ClosedHeld(cfg: Config, s: State, sid: Sid, srl: Srl, m: StorageMsg)
    requires HeldAll(cfg, s, Focus(sid, srl, {})) && Leaving(s, sid, srl) && sid in s.results && sid in s.errors && sid in s.log && sid in s.asked && sid in s.asked
    ensures HeldAll(cfg, Closed(s, sid, srl, m), NoFocus)
  {
    hide Closed, HeldOk;
    var s' := Closed(s, sid, srl, m);
    ClosedFrame(s, sid, srl, m);
    forall sid1, srl1 | Has(s', sid1, srl1) ensures HeldOk(cfg, s', sid1, srl1, At(s', sid1, srl1), NoFocus) {
      ClosedEntry(s, sid, srl, m, sid1, srl1);
      var r := s'.(results := s.results, errors := s.errors, log := s.log, asked := s.asked, storage := s.storage);
      Refocused(cfg, s, r, sid1, srl1, At(s, sid1, srl1), Focus(sid, srl, {}), NoFocus);
      SameTables(cfg, r, s', sid1, srl1, At(s, sid1, srl1), NoFocus);
    }
  }

  lemma OnlyOne(s: State, sid: Sid, srl: Srl, srl1: Srl)
    requires Leaving(s, sid, srl) && srl1 in s.entries[sid]
    requires sid in Told(s, sid, srl).entries && Told(s, sid, srl).entries[sid] == map[]
    ensures srl1 == srl
  {
    hide Told;
    ToldFrame(s, sid, srl);
  }

  /** The record pushed on closing is correct. */
  lemma ClosedFinal(cfg: Config, s: State, sid: Sid, srl: Srl, m: StorageMsg)
    requires SubOk(cfg, s, sid) && Leaving(s, sid, srl) && At(s, sid, srl).parent.None?
    requires Told(s, sid, srl).entries[sid] == map[] && Walked(cfg, At(s, sid, srl))
    ensures var s1 := Told(s, sid, srl);
            && sid in s1.completed && sid in s1.results && sid in s1.errors && sid in s1.score && sid in s1.log && sid in s1.asked
            && FinalOk(cfg, FinalRecord(s1.(storage := s1.storage + [m]), sid, srl, At(s, sid, srl)))
  {
    var s1 := Told(s, sid, srl);
    ToldBest(cfg, s, sid, srl);
    ToldAsked(cfg, s, sid, srl);
    var done := s1.completed[sid];
    hide Best, Keys, Linked, Logged, Finishes, Total, Served, Walked, AsAsked;
    assert srl in done;
    assert s1.score[sid].Some?;
    forall x | x in s.entries[sid] ensures x in done { OnlyOne(s, sid, srl, x); }
  }

  /** The books balance after a submission has been closed with its final record. */
  lemma ClosingBalance(cfg: Config, s: State, s': State, sid: Sid, c: StorageMsg, r: StorageMsg)
    requires Balanced(cfg, s) && c.Complete? && r.Finalize? && r.sid == sid && FinalOk(cfg, r)
    requires s'.storage == (s.storage + [c]) + [r] && s'.started == s.started
    requires sid in s.entries && sid !in s'.entries && forall x :: x != sid ==> (x in s'.entries <==> x in s.entries)
    ensures Balanced(cfg, s')
  {
    FinalsAppend(s.storage, c);
    FinalsAppend(s.storage + [c], r);
    NotFinal(cfg, c);
    hide Finals, FinalOk;
    forall x ensures Tally(s', x) { assert Tally(s, x); }
  }

  lemma ClosedBalanced(cfg: Config, s: State, sid: Sid, srl: Srl, m: StorageMsg)
    requires Balanced(cfg, s) && m.Complete?
    requires SubOk(cfg, s, sid) && Leaving(s, sid, srl) && At(s, sid, srl).parent.None?
    requires Told(s, sid, srl).entries[sid] == map[] && Walked(cfg, At(s, sid, srl))
    ensures Balanced(cfg, Closed(s, sid, srl, m))
  {
    var s2 := Told(s, sid, srl).(storage := Told(s, sid, srl).storage + [m]);
    ClosedFinal(cfg, s, sid, srl, m);
    ClosedStorage(s, sid, srl, m);
    ClosedFrame(s, sid, srl, m);
    var r := FinalRecord(s2, sid, srl, At(s, sid, srl));
    hide Balanced, SubOk, FinalOk, Walked, Told, Closed;
    forall x ensures x != sid ==> (x in Closed(s, sid, srl, m).entries <==> x in s.entries) {
      if x != sid { ClosedOther(s, sid, srl, m, x); }
    }
    ClosingBalance(cfg, s, Closed(s, sid, srl, m), sid, m, r);
  }

  lemma ClosedKeeps(cfg: Config, s: State, sid: Sid, srl: Srl, m: StorageMsg)
    requires Inv(cfg, s, Focus(sid, srl, {})) && Leaving(s, sid, srl) && m.Complete?
    requires At(s, sid, srl).parent.None? && Told(s, sid, srl).entries[sid] == map[] && Walked(cfg, At(s, sid, srl))
    ensures sid in s.results && sid in s.errors && sid in s.log && sid in s.asked && sid in s.asked
    ensures Inv(cfg, Closed(s, sid, srl, m), NoFocus)
  {
    assert Slot(cfg, s, sid);
    ClosedBalanced(cfg, s, sid, srl, m);
    var s' := Closed(s, sid, srl, m);
    hide SubAll, HeldAll, SendsOk, Timely, Known, Balanced, Told, SubOk;
    ClosedSub(cfg, s, sid, srl, m);
    ClosedHeld(cfg, s, sid, srl, m);
    ClosedSends(cfg, s, sid, srl, m);
    ClosedTables(cfg, s, sid, srl, m);
  }

  lemma ClosedSends(cfg: Config, s: State, sid: Sid, srl: Srl, m: StorageMsg)
    requires SendsOk(cfg, s) && Leaving(s, sid, srl) && sid in s.results && sid in s.errors && sid in s.log && sid in s.asked && sid in s.asked
    ensures SendsOk(cfg, Closed(s, sid, srl, m))
  {
    hide SendsOk, Closed;
    var s' := Closed(s, sid, srl, m);
    ClosedFrame(s, sid, srl, m);
    forall sid1, srl1 | Has(s', sid1, srl1) ensures Has(s, sid1, srl1) && At(s', sid1, srl1) == At(s, sid1, srl1) {
      ClosedEntry(s, sid, srl, m, sid1, srl1);
    }
    FewerSends(cfg, s, s');
  }

  lemma ClosedTables(cfg: Config, s: State, sid: Sid, srl: Srl, m: StorageMsg)
    requires TablesOk(cfg, s) && Leaving(s, sid, srl) && sid in s.results && sid in s.errors && sid in s.log && sid in s.asked && sid in s.asked
    ensures TablesOk(cfg, Closed(s, sid, srl, m))
  {
    hide Timely, Known, Closed;
    ClosedFrame(s, sid, srl, m);
  }

  // ---- UpdateEntry and RemoveEntry -----------------------------------------------------------

  /** An entry that cannot leave because it is Done but has children, or is not Done but has
      services to wait for, is settled. */
  lemma Stays(cfg: Config, s: State, sid: Sid, srl: Srl, e: Entry, todo: set<Name>)
    requires EntryOk(cfg, e) && Covered(s, sid, srl, e, todo) && 1 <= e.stage
    requires e.stage == cfg.Done() ==> e.outstandingKids != {} || e.extracted != {}
    requires e.stage < cfg.Done() ==> e.dispatched[e.stage] + e.acked[e.stage] != {}
    ensures Settled(cfg, s, sid, srl, e)
  {
    hide Armed;
    if e.stage == cfg.Done() && e.extracted != {} {
      var c :| c in e.extracted;
      assert Armed(s.childT, sid, srl, c);
    }
  }

  /** Sent services are covered, so the focus may be lifted. */
  lemma Lifted(cfg: Config, s: State, sid: Sid, srl: Srl)
    requires Inv(cfg, s, Focus(sid, srl, {}))
    requires Has(s, sid, srl) ==> EntryOk(cfg, At(s, sid, srl)) && Settled(cfg, s, sid, srl, At(s, sid, srl))
    ensures Inv(cfg, s, NoFocus)
  {
    hide SubAll, SendsOk, TablesOk, Balanced, EntryOk, Settled, Covered;
    forall sid1, srl1 | Has(s, sid1, srl1) ensures HeldOk(cfg, s, sid1, srl1, At(s, sid1, srl1), NoFocus) {
      assert HeldOk(cfg, s, sid1, srl1, At(s, sid1, srl1), Focus(sid, srl, {}));
    }
  }

  lemma UpdateKeeps(cfg: Config, s: State, sid: Sid, srl: Srl, now: real, o: Oracle)
    requires Inv(cfg, s, Focus(sid, srl, {})) && Has(s, sid, srl)
    requires cfg.Valid() && o.Valid() && now == s.clock
    ensures Ready(cfg, s, sid) && Inv(cfg, Update(cfg, s, sid, srl, now, o), NoFocus)
    decreases |s.entries[sid]|, 1
  {
    InvReady(cfg, s, Focus(sid, srl, {}), sid);
    var e := At(s, sid, srl);
    FocusFacts(cfg, s, sid, srl);
    StageMoved(cfg, e);
    var stage := NextStage(cfg, e, e.stage);
    NextStageStops(cfg, e, e.stage);
    hide SubAll, HeldAll, SendsOk, TablesOk, Balanced, StageOk;
    if stage == cfg.Done() {
      var e1 := e.(stage := stage);
      var s1 := Put(s, sid, srl, e1);
      ReadyPut(cfg, s, sid, srl, e1);
      UpdateStage(cfg, s, sid, srl, stage);
      if e.outstandingKids == {} && e.extracted == {} {
        RemoveKeeps(cfg, s1, sid, srl, now, o);
      } else {
        Stays(cfg, s1, sid, srl, e1, {});
        Lifted(cfg, s1, sid, srl);
      }
    } else if e.dispatched[stage] != {} {
      var e1 := e.(stage := stage);
      var s1 := Put(s, sid, srl, e1);
      UpdateStage(cfg, s, sid, srl, stage);
      Stays(cfg, s1, sid, srl, e1, {});
      Lifted(cfg, s1, sid, srl);
    } else {
      UpdateSends(cfg, s, sid, srl, now, o);
    }
  }

  lemma FocusFacts(cfg: Config, s: State, sid: Sid, srl: Srl)
    requires Inv(cfg, s, Focus(sid, srl, {})) && Has(s, sid, srl)
    ensures EntryOk(cfg, At(s, sid, srl)) && Covered(s, sid, srl, At(s, sid, srl), {})
  {
    assert HeldOk(cfg, s, sid, srl, At(s, sid, srl), Focus(sid, srl, {}));
  }

  /** Recording the stage reached. */
  lemma UpdateStage(cfg: Config, s: State, sid: Sid, srl: Srl, stage: nat)
    requires Inv(cfg, s, Focus(sid, srl, {})) && Has(s, sid, srl)
    requires EntryOk(cfg, At(s, sid, srl).(stage := stage))
    ensures var e1 := At(s, sid, srl).(stage := stage);
            var s1 := Put(s, sid, srl, e1);
            Inv(cfg, s1, Focus(sid, srl, {})) && Covered(s1, sid, srl, e1, {})
  {
    FocusFacts(cfg, s, sid, srl);
    hide SubAll, HeldAll, SendsOk, TablesOk, Balanced, EntryOk, Armed;
    var e1 := At(s, sid, srl).(stage := stage);
    MovedKeeps(cfg, s, Focus(sid, srl, {}), Focus(sid, srl, {}), sid, srl, e1);
  }

  /** The entry enters its next stage, whose services are about to be sent. */
  function Entered(cfg: Config, e: Entry): Entry
    requires Shaped(cfg, e)
  {
    var r := NextStage(cfg, e, e.stage);
    e.(stage := r, dispatched := e.dispatched[r := e.outstanding[r]], outstanding := e.outstanding[r := {}])
  }

  lemma EnteredKeeps(cfg: Config, s: State, sid: Sid, srl: Srl)
    requires Inv(cfg, s, Focus(sid, srl, {})) && Has(s, sid, srl) && Ready(cfg, s, sid) && cfg.Valid()
    requires var e := At(s, sid, srl); var r := NextStage(cfg, e, e.stage);
             r < cfg.Done() && e.dispatched[r] == {}
    ensures var e := At(s, sid, srl);
            var e1 := Entered(cfg, e);
            && Inv(cfg, Put(s, sid, srl, e1), Focus(sid, srl, e.outstanding[e1.stage])) && EntryOk(cfg, e1)
            && 1 <= e1.stage < cfg.Done() && e1.dispatched[e1.stage] + e1.acked[e1.stage] != {}
  {
    var e := At(s, sid, srl);
    var e1 := Entered(cfg, e);
    FocusFacts(cfg, s, sid, srl);
    StageMoved(cfg, e);
    NextStageStops(cfg, e, e.stage);
    SendsCovered(s, sid, srl, e, e1, e1.stage);
    hide SubAll, HeldAll, SendsOk, TablesOk, Balanced, EntryOk, Covered, Settled;
    MovedKeeps(cfg, s, Focus(sid, srl, {}), Focus(sid, srl, e.outstanding[e1.stage]), sid, srl, e1);
  }

  /** Sending the services of a fresh stage. */
  lemma UpdateSends(cfg: Config, s: State, sid: Sid, srl: Srl, now: real, o: Oracle)
    requires Inv(cfg, s, Focus(sid, srl, {})) && Has(s, sid, srl) && Ready(cfg, s, sid)
    requires cfg.Valid() && o.Valid() && now == s.clock
    requires var e := At(s, sid, srl); var r := NextStage(cfg, e, e.stage);
             r < cfg.Done() && e.dispatched[r] == {}
    ensures Inv(cfg, Update(cfg, s, sid, srl, now, o), NoFocus)
  {
    var e := At(s, sid, srl);
    var e1 := Entered(cfg, e);
    var todo, s1 := e.outstanding[e1.stage], Put(s, sid, srl, e1);
    EnteredKeeps(cfg, s, sid, srl);
    InvCompleted(cfg, s, Focus(sid, srl, {}), sid, srl);
    var s2 := DispatchAll(cfg, s1, sid, srl, o.order(todo), now, o);
    hide Inv, EntryOk, Covered, Settled, Linked;
    DispatchAllKeeps(cfg, s1, sid, srl, o.order(todo), todo, now, o);
    DispatchAllSends(cfg, s1, sid, srl, o.order(todo), now, o);
    SentSettled(cfg, s1, s2, sid, srl, e1);
    Lifted(cfg, s2, sid, srl);
  }

  /** A service about to be sent is the only one not covered yet. */
  lemma SendsCovered(s: State, sid: Sid, srl: Srl, e: Entry, e1: Entry, r: nat)
    requires Covered(s, sid, srl, e, {}) && r < |e.dispatched| && r < |e.outstanding|
    requires e1 == e.(stage := r, dispatched := e.dispatched[r := e.outstanding[r]], outstanding := e.outstanding[r := {}])
    ensures Covered(s, sid, srl, e1, e.outstanding[r])
  {
    hide Armed;
  }

  /** An entry that waits for services still does after requests have been sent. */
  lemma SentSettled(cfg: Config, s: State, s': State, sid: Sid, srl: Srl, e: Entry)
    requires Sends(s, s') && Has(s, sid, srl) && At(s, sid, srl) == e
    requires EntryOk(cfg, e) && 1 <= e.stage < cfg.Done() && e.dispatched[e.stage] + e.acked[e.stage] != {}
    ensures Has(s', sid, srl) && EntryOk(cfg, At(s', sid, srl)) && Settled(cfg, s', sid, srl, At(s', sid, srl))
  {
    hide Armed;
    var e' := At(s', sid, srl);
    assert Retried(e, e');
    forall st | 0 <= st <= cfg.Done() ensures StageOk(cfg, e', st) { assert StageOk(cfg, e, st); }
  }

  /** Removing an entry is telling its parent and moving that on. */
  lemma RemoveChild(cfg: Config, s: State, sid: Sid, srl: Srl, now: real, o: Oracle)
    requires Ready(cfg, s, sid) && srl in s.entries[sid] && o.Valid() && Leaving(s, sid, srl) && At(s, sid, srl).parent.Some?
    ensures var e, s1 := At(s, sid, srl), Told(s, sid, srl);
            && sid in s1.entries && s1.entries[sid] == Without(s.entries[sid], srl) && Ready(cfg, s1, sid) && e.parent.value in s1.entries[sid]
            && Remove(cfg, s, sid, srl, now, o) == Update(cfg, s1, sid, e.parent.value, now, o)
  {
    hide Update;
    WithoutLinked(s.entries[sid], srl);
  }

  /** Removing a root is closing the submission, unless other files are still held. */
  lemma RemoveRoot(cfg: Config, s: State, sid: Sid, srl: Srl, now: real, o: Oracle)
    requires Ready(cfg, s, sid) && srl in s.entries[sid] && o.Valid() && Leaving(s, sid, srl) && At(s, sid, srl).parent.None?
    ensures var e, s1 := At(s, sid, srl), Told(s, sid, srl);
            && sid in s1.entries && sid in s1.score
            && var m := Complete(sid, s1.score[sid].GetOr(0));
            Remove(cfg, s, sid, srl, now, o)
            == if s1.entries[sid] != map[] then s1.(storage := s1.storage + [m]) else Closed(s, sid, srl, m)
  {
    hide Update, Linked, Shaped;
  }

  lemma RemoveKeeps(cfg: Config, s: State, sid: Sid, srl: Srl, now: real, o: Oracle)
    requires Inv(cfg, s, Focus(sid, srl, {})) && Has(s, sid, srl) && At(s, sid, srl).outstandingKids == {}
    requires cfg.Valid() && o.Valid() && now == s.clock && Ready(cfg, s, sid) && Walked(cfg, At(s, sid, srl))
    ensures Inv(cfg, Remove(cfg, s, sid, srl, now, o), NoFocus)
    decreases |s.entries[sid]|, 0
  {
    hide Inv, Remove, Update, Told, Closed, Leaving, Linked, Shaped, Walked;
    MayLeave(cfg, s, Focus(sid, srl, {}), sid, srl);
    ToldStays(s, sid, srl);
    var s1 := Told(s, sid, srl);
    var e := At(s, sid, srl);
    if e.parent.Some? {
      RemoveChild(cfg, s, sid, srl, now, o);
      ToldKeeps(cfg, s, sid, srl);
      WithoutLinked(s.entries[sid], srl);
      UpdateKeeps(cfg, s1, sid, e.parent.value, now, o);
    } else {
      RemoveRoot(cfg, s, sid, srl, now, o);
      var m := Complete(sid, s1.score[sid].GetOr(0));
      if s1.entries[sid] != map[] {
        ToldKeeps(cfg, s, sid, srl);
        CompletePushed(cfg, s1, NoFocus, m);
      } else {
        ClosedKeeps(cfg, s, sid, srl, m);
      }
    }
  }
}
