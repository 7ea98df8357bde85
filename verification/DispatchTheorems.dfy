/** What the invariant means for the users of the dispatcher, in every reachable state. */
module DispatchTheorems {
  import opened Prelude
  import opened DispatchModel
  import opened DispatchInvariant
  import opened DispatchSend
  import opened DispatchUpdate
  import opened DispatchEvents
  import opened DispatchSubmit
  import opened DispatchTimeouts
  import opened DispatchSweep
  import opened DispatchRun

  // ---- No submission is ever wedged ----------------------------------------------------------

  /** Something will still happen to file `srl`: a timeout is armed, or a reply is on its way. */
  ghost predicate Stirs(s: State, sid: Sid, srl: Srl) {
    || (exists n :: Armed(s.ackT, sid, srl, n))
    || (exists n :: Armed(s.svcT, sid, srl, n))
    || (exists c :: Armed(s.childT, sid, srl, c))
    || (exists n :: Owed(s.pending, sid, srl, n))
  }

  ghost predicate IsYoungest(files: map<Srl, Entry>, y: Srl) {
    y in files && forall c | c in files :: files[c].born <= files[y].born
  }

  lemma {:induction false} Youngest(files: map<Srl, Entry>) returns (y: Srl)
    requires files != map[]
    ensures IsYoungest(files, y)
    decreases |files|
  {
    var c :| c in files;
    var rest := files - {c};
    if rest == map[] {
      y := c;
      assert forall d | d in files && d != c :: d in rest;
    } else {
      assert rest.Keys == files.Keys - {c};
      assert |rest.Keys| == |files.Keys| - 1 && |rest| == |rest.Keys| && |files| == |files.Keys|;
      y := Youngest(rest);
      if files[c].born > files[y].born { y := c; }
      forall d | d in files ensures files[d].born <= files[y].born {
        if d != c { assert d in rest; }
      }
    }
  }

  lemma YoungestChildless(files: map<Srl, Entry>, y: Srl)
    requires Linked(files) && IsYoungest(files, y)
    ensures files[y].outstandingKids == {}
  {
    forall c | c in files[y].outstandingKids ensures c in files && files[y].born < files[c].born {
      assert Down(files, y, c);
      assert Up(files, c);
    }
  }

  /** An entry without outstanding children has something armed or on its way. */
  lemma ChildlessStirs(cfg: Config, s: State, sid: Sid, srl: Srl)
    requires Inv(cfg, s, NoFocus) && Has(s, sid, srl) && At(s, sid, srl).outstandingKids == {}
    ensures Stirs(s, sid, srl)
  {
    HeldFacts(cfg, s, NoFocus, sid, srl);
    var e := At(s, sid, srl);
    hide Inv, Armed, StageOk;
    if e.stage < cfg.Done() {
      var n :| n in e.dispatched[e.stage] + e.acked[e.stage];
      if n in e.dispatched[e.stage] {
        assert Armed(s.ackT, sid, srl, n) || Owed(s.pending, sid, srl, n);
      } else {
        assert n in e.acked[e.stage];
        assert Armed(s.svcT, sid, srl, n) || Owed(s.pending, sid, srl, n);
      }
    }
  }

  /** In every reachable state each submission in flight has an armed timeout or a reply coming. */
  lemma NeverWedged(cfg: Config, s: State, sid: Sid)
    requires cfg.Valid() && Reachable(cfg, s) && sid in s.entries
    ensures exists srl :: Has(s, sid, srl) && Stirs(s, sid, srl)
  {
    ReachableInv(cfg, s);
    hide Reachable, Stirs;
    var files := s.entries[sid];
    assert Slot(cfg, s, sid);
    var y := Youngest(files);
    YoungestChildless(files, y);
    ChildlessStirs(cfg, s, sid, y);
    assert Has(s, sid, y);
  }

  /** Each service being waited for, each announced child and each finished file that is still
      held has its own reason to be revisited. */
  lemma EveryWaitIsArmed(cfg: Config, s: State, sid: Sid, srl: Srl, st: nat, n: Name, c: Srl)
    requires cfg.Valid() && Reachable(cfg, s) && Has(s, sid, srl) && st <= cfg.Done()
    ensures EntryOk(cfg, At(s, sid, srl))
    ensures n in At(s, sid, srl).dispatched[st] ==> Armed(s.ackT, sid, srl, n) || Owed(s.pending, sid, srl, n)
    ensures n in At(s, sid, srl).acked[st] ==> Armed(s.svcT, sid, srl, n) || Owed(s.pending, sid, srl, n)
    ensures c in At(s, sid, srl).extracted ==> Armed(s.childT, sid, srl, c)
    ensures At(s, sid, srl).stage == cfg.Done() && At(s, sid, srl).outstandingKids == {} ==>
              exists c :: Armed(s.childT, sid, srl, c)
  {
    ReachableInv(cfg, s);
    HeldFacts(cfg, s, NoFocus, sid, srl);
    hide Inv, Reachable, Armed, StageOk;
  }

  // ---- Parents, children and the end of a submission -----------------------------------------

  /** The parent of a held entry is held and waits for it; a held file is not completed. */
  lemma ParentsAreHeld(cfg: Config, s: State, sid: Sid, srl: Srl)
    requires cfg.Valid() && Reachable(cfg, s) && Has(s, sid, srl)
    ensures sid in s.completed && srl !in s.completed[sid]
    ensures At(s, sid, srl).parent.Some? ==>
              var p := At(s, sid, srl).parent.value;
              Has(s, sid, p) && srl in At(s, sid, p).outstandingKids && p != srl
    ensures forall c | c in At(s, sid, srl).outstandingKids :: Has(s, sid, c) && At(s, sid, c).parent == Some(srl)
  {
    ReachableInv(cfg, s);
    assert Slot(cfg, s, sid);
    assert Up(s.entries[sid], srl);
    forall c | c in At(s, sid, srl).outstandingKids ensures Has(s, sid, c) && At(s, sid, c).parent == Some(srl) {
      assert Down(s.entries[sid], srl, c);
    }
  }

  function InFlight(s: State, sid: Sid): nat {
    if sid in s.entries then 1 else 0
  }

  /** Final records and submissions balance at every step: one is pushed exactly when a submission
      started earlier, or by this very step, is no longer held. */
  lemma FinalizedExactlyOnClosing(cfg: Config, s: State, step: Step, s': State, sid: Sid)
    requires Follows(cfg, s, step, s')
    ensures Finals(s'.storage)[sid] + InFlight(s', sid) + s.started[sid] ==
              Finals(s.storage)[sid] + InFlight(s, sid) + s'.started[sid]
    ensures sid in s.entries ==> s.entries[sid] != map[]
  {
    NextKeeps(cfg, s, step);
    hide Next;
    assert Tally(s, sid) && Tally(s', sid);
    assert Slot(cfg, s, sid);
  }

  /** Every final record was pushed by a childless root, with the keys of the completions of its
      submission, each service at most once per file, and the best total score of all its files. */
  lemma FinalsAreRight(cfg: Config, s: State, m: StorageMsg)
    requires cfg.Valid() && Reachable(cfg, s) && m in s.storage && m.Finalize?
    ensures m.top.parent.None? && m.top.outstandingKids == {} && m.srl in m.files
    ensures forall i, j | 0 <= i < j < |m.log| :: m.log[i].srl != m.log[j].srl || m.log[i].name != m.log[j].name
    ensures m.results == Keys(m.log, true) && m.errors == Keys(m.log, false)
    ensures exists f :: f in m.files && Total(m.log, f) == m.score
    ensures forall f | f in m.files :: Total(m.log, f) <= m.score
  {
    ReachableInv(cfg, s);
    hide Reachable, SubAll, HeldAll, SendsOk, TablesOk, Keys, Total, Finals;
    assert FinalOk(cfg, m);
  }

  // ---- Services are conserved ----------------------------------------------------------------

  lemma AskedFacts(cfg: Config, s: State, sid: Sid, srl: Srl)
    requires cfg.Valid() && Reachable(cfg, s) && Has(s, sid, srl)
    ensures sid in s.asked && srl in s.asked[sid] && sid in s.log
    ensures AsAsked(cfg, s.log[sid], srl, At(s, sid, srl), s.asked[sid][srl])
  {
    ReachableInv(cfg, s);
    hide Reachable, LogOk, Linked, Best, Keys, AsAsked, Served;
    assert Slot(cfg, s, sid);
  }

  /** At every stage the four tables split the services that the file was submitted for, or are empty once
      a service of an earlier stage has asked to drop the file. */
  lemma ServicesConserved(cfg: Config, s: State, sid: Sid, srl: Srl, st: nat)
    requires cfg.Valid() && Reachable(cfg, s) && Has(s, sid, srl) && st <= cfg.Done()
    ensures EntryOk(cfg, At(s, sid, srl)) && sid in s.asked && srl in s.asked[sid] && sid in s.log
    ensures var e, due := At(s, sid, srl), Chosen(cfg, s.asked[sid][srl].select, st);
            var dropped := DroppedBefore(cfg, s.log[sid], srl, st);
            && e.outstanding[st] !! e.dispatched[st] !! e.acked[st] !! e.completed[st]
            && e.outstanding[st] + e.dispatched[st] + e.acked[st] + e.completed[st] == (if dropped then {} else due)
            && (e.dispatched[st] + e.acked[st] != {} ==> st == e.stage)
            && (e.stage == cfg.Done() && !dropped ==> e.completed[st] == due)
  {
    ReachableInv(cfg, s);
    AskedFacts(cfg, s, sid, srl);
    HeldFacts(cfg, s, NoFocus, sid, srl);
    hide Reachable, Inv, SaidDrop;
    assert StageOk(cfg, At(s, sid, srl), st);
    DropBefore(cfg, s.log[sid], srl, At(s, sid, srl), st);
    assert Chosen(cfg, At(s, sid, srl).selected, st) == Chosen(cfg, s.asked[sid][srl].select, st);
  }

  /** The results and errors of a submission in flight are the cache keys of its completions, in
      order; a service is among them at most once per file, and exactly if it is completed there. */
  lemma KeysOncePerService(cfg: Config, s: State, sid: Sid)
    requires cfg.Valid() && Reachable(cfg, s) && sid in s.entries
    ensures SubOk(cfg, s, sid)
    ensures s.results[sid] == Keys(s.log[sid], true) && s.errors[sid] == Keys(s.log[sid], false)
    ensures Once(s.log[sid])
    ensures forall srl, n | srl in s.entries[sid] :: Logged(s.log[sid], srl, n) <==> Finishes(cfg, s.entries[sid][srl], n)
    ensures forall srl | srl in s.entries[sid] :: s.entries[sid][srl].score == Total(s.log[sid], srl)
  {
    ReachableInv(cfg, s);
    assert Slot(cfg, s, sid);
  }

  /** A service is sent a given file at most maxRetries + 1 times, however often it is retried. */
  lemma SentAtMost(cfg: Config, s: State, born: nat, n: Name)
    requires cfg.Valid() && Reachable(cfg, s)
    ensures s.sent[(born, n)] <= cfg.maxRetries + 1
  {
    ReachableInv(cfg, s);
    hide Reachable;
  }

  // ---- Timeouts ------------------------------------------------------------------------------

  ghost predicate FrontExpired<D(!new)>(v: seq<Timeout<D>>, now: real) {
    forall i | 0 <= i < |v| :: v[i].time < now <==> i < Expired(v, now)
  }

  /** Lists are in order of time, so in each of the three tables scanning the front of a list is as
      good as filtering the whole list. */
  lemma PrefixScanIsFilter(cfg: Config, s: State, k: real, now: real)
    requires cfg.Valid() && Reachable(cfg, s)
    ensures k in s.ackT ==> FrontExpired(s.ackT[k], now)
    ensures k in s.svcT ==> FrontExpired(s.svcT[k], now)
    ensures k in s.childT ==> FrontExpired(s.childT[k], now)
  {
    ReachableInv(cfg, s);
    InvTimely(cfg, s, true);
    InvTimely(cfg, s, false);
    hide Reachable, Inv;
    if k in s.ackT { ExpiredExact(s.ackT[k], now); }
    if k in s.svcT { ExpiredExact(s.svcT[k], now); }
    if k in s.childT { ExpiredExact(s.childT[k], now); }
  }

  // ---- explain_state ---------------------------------------------------------------------------

  ghost predicate Mentions<D(!new)>(t: Table<D>, sid: Sid) {
    exists k, i :: k in t && 0 <= i < |t[k]| && t[k][i].sid == sid
  }

  /** explain_state says "No timeouts for this submission!": it looks at ack and service timeouts only. */
  ghost predicate NoTimeouts(s: State, sid: Sid) {
    sid in s.entries && s.entries[sid] != map[] && !Mentions(s.ackT, sid) && !Mentions(s.svcT, sid)
  }

  lemma ArmedMentions<D(!new)>(t: Table<D>, sid: Sid, srl: Srl, d: D)
    requires Armed(t, sid, srl, d)
    ensures Mentions(t, sid)
  {
    var k, i :| k in t && 0 <= i < |t[k]| && Names(t[k][i], sid, srl, d);
    assert t[k][i].sid == sid;
  }

  /** What the message means: the submission is not stuck, but every service it waits for has been
      answered by the dispatcher itself, and it has such an answer or an announced child to come. */
  lemma MessageMeans(cfg: Config, s: State, sid: Sid)
    requires cfg.Valid() && Reachable(cfg, s) && NoTimeouts(s, sid)
    ensures forall srl, n | Has(s, sid, srl) && Waits(cfg, At(s, sid, srl), n) :: Owed(s.pending, sid, srl, n)
    ensures exists srl :: Has(s, sid, srl) && ((exists n :: Owed(s.pending, sid, srl, n)) || exists c :: Armed(s.childT, sid, srl, c))
  {
    ReachableInv(cfg, s);
    NeverWedged(cfg, s, sid);
    hide Inv, Reachable, Armed, Mentions, Owed, EntryOk;
    forall srl, n ensures !Armed(s.ackT, sid, srl, n) && !Armed(s.svcT, sid, srl, n) {
      if Armed(s.ackT, sid, srl, n) { ArmedMentions(s.ackT, sid, srl, n); }
      if Armed(s.svcT, sid, srl, n) { ArmedMentions(s.svcT, sid, srl, n); }
    }
    forall srl, n | Has(s, sid, srl) && Waits(cfg, At(s, sid, srl), n) ensures Owed(s.pending, sid, srl, n) {
      HeldFacts(cfg, s, NoFocus, sid, srl);
      assert Covered(s, sid, srl, At(s, sid, srl), {});
    }
  }

  /** The first stage with work for a new file. */
  ghost predicate FirstWork(cfg: Config, select: set<Name>, st: nat) {
    1 <= st <= cfg.stages && Chosen(cfg, select, st) != {} && forall y | 1 <= y < st :: Chosen(cfg, select, y) == {}
  }

  /** A service that a new file is not sent to at once. */
  predicate HeldBack(cfg: Config, depth: int, files: int, srl: Srl, n: Name, o: Oracle) {
    o.down(n) || depth > cfg.maxDepth || files > cfg.maxFiles || o.skip(srl, n)
  }

  /** It does appear: right after a root has opened a submission that no timeout mentions, exactly
      if the first stage with services holds all of them back, each for being down, for skipping the
      file, or by the limits. */
  lemma MessageAppears(cfg: Config, s: State, m: Submission, now: real, o: Oracle) returns (s': State)
    requires cfg.Valid() && Reachable(cfg, s) && o.Valid() && now >= s.clock
    requires m.psrl.None? && m.sid !in s.entries && !Mentions(s.ackT, m.sid) && !Mentions(s.svcT, m.sid)
    ensures Follows(cfg, s, Step(Submit(m), now, o), s')
    ensures NoTimeouts(s', m.sid)
            <==> exists st :: FirstWork(cfg, m.select, st)
                   && forall n | n in Chosen(cfg, m.select, st) :: HeldBack(cfg, 0, 1, m.srl, n, o)
  {
    ReachableInv(cfg, s);
    hide Inv, NoTimeouts, Reachable, Mentions, FirstWork;
    TimePasses(cfg, s, now);
    s' := Next(cfg, s, Step(Submit(m), now, o));
    RootSubmitted(cfg, WithClock(s, now), m, now, o);
  }

  /** The state in which a root has entered its new submission. */
  function RootEntered(cfg: Config, s: State, m: Submission): State
    requires m.psrl.None?
  {
    Enter(cfg, Open(s, m.sid), m, 0)
  }

  lemma RootIn(cfg: Config, s: State, m: Submission)
    requires m.psrl.None? && m.sid !in s.entries
    ensures var s1, e := RootEntered(cfg, s, m), NewEntry(cfg, s, m, 0);
            && Arrived(cfg, s, m) == (s1, true) && m.sid in s1.completed && s1.completed[m.sid] == map[]
            && m.sid in s1.entries && s1.entries[m.sid] == map[m.srl := e]
            && s1.ackT == s.ackT && s1.svcT == s.svcT
  {}

  /** The stage at which a new file starts. */
  lemma RootStage(cfg: Config, s: State, m: Submission)
    requires cfg.Valid()
    ensures var e := NewEntry(cfg, s, m, 0);
            && Shaped(cfg, e)
            && var st := NextStage(cfg, e, 0);
               && (st < cfg.Done() ==> FirstWork(cfg, m.select, st) && e.outstanding[st] == Chosen(cfg, m.select, st) && e.dispatched[st] == {})
               && (st == cfg.Done() ==> forall y :: !FirstWork(cfg, m.select, y))
  {
    var e := NewEntry(cfg, s, m, 0);
    NextStageStops(cfg, e, 0);
    forall y | 0 <= y <= cfg.Done() ensures e.outstanding[y] == Chosen(cfg, m.select, y) && (y >= 1 ==> (Idle(e, y) <==> Chosen(cfg, m.select, y) == {})) {}
  }

  lemma OneFirst(cfg: Config, select: set<Name>, x: nat, y: nat)
    requires FirstWork(cfg, select, x) && FirstWork(cfg, select, y)
    ensures x == y
  {}

  lemma RootSubmitted(cfg: Config, s: State, m: Submission, now: real, o: Oracle)
    requires cfg.Valid() && Inv(cfg, s, NoFocus) && o.Valid() && now == s.clock
    requires m.psrl.None? && m.sid !in s.entries && !Mentions(s.ackT, m.sid) && !Mentions(s.svcT, m.sid)
    ensures NoTimeouts(Submitted(cfg, s, m, now, o), m.sid)
            <==> exists st :: FirstWork(cfg, m.select, st)
                   && forall n | n in Chosen(cfg, m.select, st) :: HeldBack(cfg, 0, 1, m.srl, n, o)
  {
    hide Inv, FirstWork, HeldBack, Mentions, NoTimeouts, Chosen, NewEntry, Update, Arrived;
    var s1, e := RootEntered(cfg, s, m), NewEntry(cfg, s, m, 0);
    RootIn(cfg, s, m);
    ArrivedKeeps(cfg, s, m);
    InvReady(cfg, s1, Focus(m.sid, m.srl, {}), m.sid);
    assert Submitted(cfg, s, m, now, o) == Update(cfg, s1, m.sid, m.srl, now, o);
    RootStage(cfg, s, m);
    RootIsNew(cfg, s, m);
    var st := NextStage(cfg, e, 0);
    if st == cfg.Done() {
      RootGone(cfg, s1, m, e, now, o);
      NotHeld(Update(cfg, s1, m.sid, m.srl, now, o), m.sid);
    } else {
      RootSent(cfg, s1, m, e, st, now, o);
      RootMentions(cfg, s1, m, e, st, now, o);
      forall y | FirstWork(cfg, m.select, y) ensures y == st { OneFirst(cfg, m.select, y, st); }
    }
  }

  /** The entry enters stage `st`, whose services are about to be sent. */
  function AtStage(s: State, sid: Sid, srl: Srl, e: Entry, st: nat): (r: State)
    requires sid in s.entries && st < |e.outstanding| && st < |e.dispatched|
    ensures Has(r, sid, srl) && r.completed == s.completed
  {
    Put(s, sid, srl, e.(stage := st, dispatched := e.dispatched[st := e.outstanding[st]], outstanding := e.outstanding[st := {}]))
  }

  lemma RootMentions(cfg: Config, s: State, m: Submission, e: Entry, st: nat, now: real, o: Oracle)
    requires o.Valid() && m.sid in s.entries && s.entries[m.sid] == map[m.srl := e] && !Mentions(s.ackT, m.sid) && !Mentions(s.svcT, m.sid)
    requires e.depth == 0 && e.retries == map[] && m.sid in s.completed && s.completed[m.sid] == map[]
    requires st < |e.outstanding| && st < |e.dispatched| && e.outstanding[st] == Chosen(cfg, m.select, st)
    ensures forall n | n in o.order(e.outstanding[st]) :: n in cfg.services
    ensures NoTimeouts(DispatchAll(cfg, AtStage(s, m.sid, m.srl, e, st), m.sid, m.srl, o.order(e.outstanding[st]), now, o), m.sid)
            <==> forall n | n in Chosen(cfg, m.select, st) :: HeldBack(cfg, 0, 1, m.srl, n, o)
  {
    hide HeldBack, Mentions, NoTimeouts, Chosen, DispatchAll;
    var todo := Chosen(cfg, m.select, st);
    var s2 := AtStage(s, m.sid, m.srl, e, st);
    KnownChosen(cfg, m.select, st, o);
    assert s2.entries[m.sid] == map[m.srl := At(s2, m.sid, m.srl)] && |s2.entries[m.sid]| == 1;
    NoMention(s2, m.sid);
    AllMentions(cfg, s2, m.sid, m.srl, o.order(todo), 0, 1, now, o);
  }

  lemma NotHeld(s: State, sid: Sid)
    requires sid !in s.entries
    ensures !NoTimeouts(s, sid)
  {}

  lemma NoMention(s: State, sid: Sid)
    requires sid in s.entries && s.entries[sid] != map[] && !Mentions(s.ackT, sid) && !Mentions(s.svcT, sid)
    ensures NoTimeouts(s, sid)
  {}

  lemma RootIsNew(cfg: Config, s: State, m: Submission)
    ensures var e := NewEntry(cfg, s, m, 0);
            && e.depth == 0 && e.retries == map[] && e.stage == 0 && e.parent == m.psrl && e.outstandingKids == {} && e.extracted == {}
  {}

  lemma KnownChosen(cfg: Config, select: set<Name>, st: nat, o: Oracle)
    requires o.Valid()
    ensures var names := o.order(Chosen(cfg, select, st));
            && (forall n | n in names :: n in cfg.services) && (forall n :: n in names <==> n in Chosen(cfg, select, st))
            && (forall i, j | 0 <= i < j < |names| :: names[i] != names[j])
  {
    assert Lists(o.order(Chosen(cfg, select, st)), Chosen(cfg, select, st));
  }

  /** A root without any service is finished at once, and its submission with it. */
  lemma RootGone(cfg: Config, s: State, m: Submission, e: Entry, now: real, o: Oracle)
    requires Ready(cfg, s, m.sid) && o.Valid() && s.entries[m.sid] == map[m.srl := e] && Shaped(cfg, e)
    requires NextStage(cfg, e, e.stage) == cfg.Done() && e.parent.None? && e.outstandingKids == {} && e.extracted == {}
    ensures m.sid !in Update(cfg, s, m.sid, m.srl, now, o).entries
  {
    hide Linked, Shaped, FinalRecord, Better;
    var s1 := Put(s, m.sid, m.srl, e.(stage := cfg.Done()));
    assert s1.entries[m.sid] - {m.srl} == map[];
  }

  lemma RootSent(cfg: Config, s: State, m: Submission, e: Entry, st: nat, now: real, o: Oracle)
    requires Ready(cfg, s, m.sid) && o.Valid() && s.entries[m.sid] == map[m.srl := e] && Shaped(cfg, e)
    requires st == NextStage(cfg, e, e.stage) < cfg.Done() && e.dispatched[st] == {}
    ensures forall n | n in o.order(e.outstanding[st]) :: n in cfg.services
    ensures Update(cfg, s, m.sid, m.srl, now, o)
            == DispatchAll(cfg, AtStage(s, m.sid, m.srl, e, st), m.sid, m.srl, o.order(e.outstanding[st]), now, o)
  {
    hide Linked, DispatchAll, Remove;
    assert At(s, m.sid, m.srl) == e && Lists(o.order(e.outstanding[st]), e.outstanding[st]);
  }

  /** A file none of whose `names` has been tried, at this depth, in a submission of this many files. */
  ghost predicate Untried(s: State, sid: Sid, srl: Srl, names: seq<Name>, depth: int, files: int) {
    && Has(s, sid, srl) && sid in s.completed && At(s, sid, srl).depth == depth
    && |s.entries[sid]| + |s.completed[sid]| == files
    && forall n | n in names :: n !in At(s, sid, srl).retries
  }

  /** Sending them, the message stays exactly while each is held back. */
  lemma {:induction false} AllMentions(cfg: Config, s: State, sid: Sid, srl: Srl, names: seq<Name>, depth: int, files: int, now: real, o: Oracle)
    requires Untried(s, sid, srl, names, depth, files) && (forall n | n in names :: n in cfg.services)
    requires forall i, j | 0 <= i < j < |names| :: names[i] != names[j]
    ensures NoTimeouts(DispatchAll(cfg, s, sid, srl, names, now, o), sid)
            <==> NoTimeouts(s, sid) && forall n | n in names :: HeldBack(cfg, depth, files, srl, n, o)
    decreases |names|
  {
    if names != [] {
      var n, rest := names[0], names[1..];
      var s1 := Dispatch(cfg, s, sid, srl, n, now, o);
      assert forall x :: x in names <==> x == n || x in rest;
      forall i | 0 <= i < |rest| ensures rest[i] != n { assert rest[i] == names[i + 1]; }
      DispatchUntried(cfg, s, sid, srl, n, rest, depth, files, now, o);
      OneMentions(cfg, s, sid, srl, n, depth, files, now, o);
      hide Dispatch, NoTimeouts, HeldBack, Untried;
      AllMentions(cfg, s1, sid, srl, rest, depth, files, now, o);
    }
  }

  lemma DispatchUntried(cfg: Config, s: State, sid: Sid, srl: Srl, n: Name, rest: seq<Name>, depth: int, files: int, now: real, o: Oracle)
    requires Has(s, sid, srl) && sid in s.completed && n in cfg.services && n !in rest
    requires Untried(s, sid, srl, rest, depth, files)
    ensures Untried(Dispatch(cfg, s, sid, srl, n, now, o), sid, srl, rest, depth, files)
  {
    hide Decide, Effect, Arm;
    var s1 := Tried(s, sid, srl, n);
    assert Dispatch(cfg, s, sid, srl, n, now, o).entries == s1.entries;
    assert s1.entries[sid].Keys == s.entries[sid].Keys;
    assert |s1.entries[sid]| == |s1.entries[sid].Keys| && |s.entries[sid]| == |s.entries[sid].Keys|;
  }

  lemma OneMentions(cfg: Config, s: State, sid: Sid, srl: Srl, n: Name, depth: int, files: int, now: real, o: Oracle)
    requires Untried(s, sid, srl, [n], depth, files) && n in cfg.services
    ensures NoTimeouts(Dispatch(cfg, s, sid, srl, n, now, o), sid) <==> NoTimeouts(s, sid) && HeldBack(cfg, depth, files, srl, n, o)
  {
    hide Effect, Tried, NoTimeouts;
    assert n in [n];
    assert Decide(cfg, s, sid, srl, n, o).Requested? <==> !HeldBack(cfg, depth, files, srl, n, o);
    hide Decide;
    TriedTables(s, sid, srl, n);
    EffectMentions(Tried(s, sid, srl, n), sid, srl, At(s, sid, srl).born, n, Decide(cfg, s, sid, srl, n, o), now);
  }

  lemma TriedTables(s: State, sid: Sid, srl: Srl, n: Name)
    requires Has(s, sid, srl)
    ensures NoTimeouts(Tried(s, sid, srl, n), sid) <==> NoTimeouts(s, sid)
  {
    hide Mentions;
    assert srl in s.entries[sid];
    assert srl in Tried(s, sid, srl, n).entries[sid];
  }

  lemma EffectMentions(s: State, sid: Sid, srl: Srl, born: nat, n: Name, out: Outcome, now: real)
    requires Has(s, sid, srl)
    ensures NoTimeouts(Effect(s, sid, srl, born, n, out, now), sid) <==> NoTimeouts(s, sid) && !out.Requested?
  {
    if out.Requested? {
      var t: Table<Name> := Effect(s, sid, srl, born, n, out, now).ackT;
      assert t[out.seconds][|t[out.seconds]| - 1].sid == sid;
    }
  }
}
