/** submitted: a file enters a submission. */
module DispatchSubmit {
  import opened Prelude
  import opened DispatchModel
  import opened DispatchInvariant
  import opened DispatchSend
  import opened DispatchUpdate
  import opened DispatchEvents

  // ---- The parent hears of its child ---------------------------------------------------------

  lemma HeardKeeps(cfg: Config, s: State, sid: Sid, psrl: Srl, kid: Srl)
    requires Inv(cfg, s, NoFocus)
    ensures Inv(cfg, Heard(s, sid, psrl, kid), NoFocus)
  {
    if Has(s, sid, psrl) {
      var p := At(s, sid, psrl);
      HeldFacts(cfg, s, NoFocus, sid, psrl);
      hide Inv, EntryOk, Armed;
      AnnouncedOk(cfg, p, p.extracted - {kid});
      MovedKeeps(cfg, s, NoFocus, NoFocus, sid, psrl, p.(extracted := p.extracted - {kid}));
    }
  }

  // ---- Entering a file -----------------------------------------------------------------------

  /** The file may enter: its submission is there, it is new, and its parent, if any, is held. */
  ghost predicate Enters(s: State, m: Submission) {
    && m.sid in s.entries && m.sid in s.completed
    && m.srl !in s.entries[m.sid] && m.srl !in s.completed[m.sid]
    && (m.psrl.Some? ==> m.psrl.value in s.entries[m.sid])
  }

  /** A parent does not know its new child yet, so it adopts it. */
  lemma Adopts(cfg: Config, s: State, m: Submission)
    requires SubOpen(cfg, s, m.sid) && Enters(s, m) && m.psrl.Some?
    ensures var p := At(s, m.sid, m.psrl.value);
            Adopt(p, m.srl) == p.(outstandingKids := p.outstandingKids + {m.srl})
  {
    assert Down(s.entries[m.sid], m.psrl.value, m.srl);
  }

  lemma NewLinks(cfg: Config, s: State, m: Submission, depth: int)
    ensures var e := NewEntry(cfg, s, m, depth); e.parent == m.psrl && e.born == s.next && e.outstandingKids == {}
  {}

  /** Adding a childless youngest file under a held parent, or as a root, leaves the links intact. */
  lemma AddedLinked(files: map<Srl, Entry>, files': map<Srl, Entry>, srl: Srl, parent: Option<Srl>)
    requires Linked(files) && srl !in files && files'.Keys == files.Keys + {srl} && (parent.Some? ==> parent.value in files)
    requires files'[srl].parent == parent && files'[srl].outstandingKids == {}
    requires forall c | c in files :: files[c].born < files'[srl].born
    requires forall c | c in files ::
      && files'[c].parent == files[c].parent && files'[c].born == files[c].born
      && files'[c].outstandingKids == files[c].outstandingKids + if parent == Some(c) then {srl} else {}
    ensures Linked(files')
  {
    forall c ensures Up(files', c) { assert Up(files, c); }
    forall p, c ensures Down(files', p, c) { assert Down(files, p, c); }
  }

  lemma AdoptLinks(e: Entry, kid: Srl)
    ensures var p := Adopt(e, kid); p.parent == e.parent && p.born == e.born
  {}

  lemma EnterLinked(cfg: Config, s: State, m: Submission, depth: int)
    requires SubOpen(cfg, s, m.sid) && Enters(s, m)
    requires forall srl | srl in s.entries[m.sid] :: s.entries[m.sid][srl].born < s.next
    ensures Linked(Enter(cfg, s, m, depth).entries[m.sid])
  {
    hide LogOk, AskedOk, Best, Keys, Enter, Linked, NewEntry, Adopt;
    EnterFrame(cfg, s, m, depth);
    var files, files' := s.entries[m.sid], Enter(cfg, s, m, depth).entries[m.sid];
    if m.psrl.Some? { Adopts(cfg, s, m); AdoptLinks(At(s, m.sid, m.psrl.value), m.srl); }
    forall c ensures c in files' <==> c in files || c == m.srl {
      EnterEntry(cfg, s, m, depth, m.sid, c);
      assert c in files' <==> Has(Enter(cfg, s, m, depth), m.sid, c);
    }
    NewLinks(cfg, s, m, depth);
    EnterEntry(cfg, s, m, depth, m.sid, m.srl);
    forall c | c in files
      ensures && files'[c].parent == files[c].parent && files'[c].born == files[c].born
              && files'[c].outstandingKids == files[c].outstandingKids + if m.psrl == Some(c) then {m.srl} else {}
    {
      EnterEntry(cfg, s, m, depth, m.sid, c);
    }
    AddedLinked(files, files', m.srl, m.psrl);
  }

  lemma TotalAbsent(log: seq<Finished>, srl: Srl)
    requires forall i | 0 <= i < |log| :: log[i].srl != srl
    ensures Total(log, srl) == 0
  {
    if log != [] { TotalAbsent(log[..|log| - 1], srl); }
  }

  /** Entering a file is the parent's adoption and then the new entry. */
  function Adopted(s: State, m: Submission): State
    requires Enters(s, m)
  {
    if m.psrl.Some? then Put(s, m.sid, m.psrl.value, Adopt(At(s, m.sid, m.psrl.value), m.srl)) else s
  }

  lemma EnterIs(cfg: Config, s: State, m: Submission, depth: int)
    requires Enters(s, m)
    ensures m.sid in Adopted(s, m).entries
    ensures Enter(cfg, s, m, depth) == Put(Adopted(s, m), m.sid, m.srl, NewEntry(cfg, s, m, depth))
      .(next := s.next + 1, asked := s.asked[m.sid := Get(s.asked, m.sid, map[])[m.srl := m]])
  {
    hide NewEntry, Adopt;
  }

  /** What entering a file leaves alone. */
  lemma EnterFrame(cfg: Config, s: State, m: Submission, depth: int)
    requires Enters(s, m)
    ensures var r := Enter(cfg, s, m, depth);
            && r == s.(entries := r.entries, next := s.next + 1, asked := s.asked[m.sid := Get(s.asked, m.sid, map[])[m.srl := m]])
            && m.sid in r.entries && forall sid :: sid in r.entries <==> sid in s.entries
  {
    hide NewEntry, Adopt, Put, Enter, Adopted;
    EnterIs(cfg, s, m, depth);
    AdoptedFrame(s, m);
    PutSame(Adopted(s, m), m.sid, m.srl, NewEntry(cfg, s, m, depth));
  }

  lemma AdoptedFrame(s: State, m: Submission)
    requires Enters(s, m)
    ensures var a := Adopted(s, m); a == s.(entries := a.entries) && forall sid :: sid in a.entries <==> sid in s.entries
  {
    hide Adopt, Put;
    if m.psrl.Some? { PutSame(s, m.sid, m.psrl.value, Adopt(At(s, m.sid, m.psrl.value), m.srl)); }
  }

  /** What it does to one entry: the file gets a new one, its parent adopts it, the others stay. */
  lemma EnterEntry(cfg: Config, s: State, m: Submission, depth: int, sid: Sid, srl: Srl)
    requires Enters(s, m)
    ensures var r := Enter(cfg, s, m, depth);
            && (Has(r, sid, srl) <==> Has(s, sid, srl) || (sid == m.sid && srl == m.srl))
            && (Has(r, sid, srl) ==>
                  At(r, sid, srl) == if sid == m.sid && srl == m.srl then NewEntry(cfg, s, m, depth)
                                     else if sid == m.sid && m.psrl == Some(srl) then Adopt(At(s, sid, srl), m.srl)
                                     else At(s, sid, srl))
  {
    hide NewEntry, Adopt, Put, Enter;
    EnterIs(cfg, s, m, depth);
    if m.psrl.Some? { PutAt(s, m.sid, m.psrl.value, Adopt(At(s, m.sid, m.psrl.value), m.srl), sid, srl); }
    PutAt(Adopted(s, m), m.sid, m.srl, NewEntry(cfg, s, m, depth), sid, srl);
  }

  lemma NewFinishes(cfg: Config, s: State, m: Submission, depth: int)
    ensures NewEntry(cfg, s, m, depth).score == 0 && NewEntry(cfg, s, m, depth).completedKids == {}
    ensures forall n :: !Finishes(cfg, NewEntry(cfg, s, m, depth), n)
  {}

  lemma AdoptFinishes(cfg: Config, e: Entry, kid: Srl)
    ensures Adopt(e, kid).score == e.score && Adopt(e, kid).completedKids == e.completedKids
    ensures forall n :: Finishes(cfg, Adopt(e, kid), n) == Finishes(cfg, e, n)
  {}

  lemma EnterLog(cfg: Config, s: State, m: Submission, depth: int)
    requires cfg.Valid() && SubOpen(cfg, s, m.sid) && Enters(s, m)
    ensures var r := Enter(cfg, s, m, depth); m.sid in r.entries && m.sid in r.completed && m.sid in r.log
    ensures LogOk(cfg, Enter(cfg, s, m, depth), m.sid)
  {
    hide Best, Keys, Linked, Once, Enter, NewEntry, Adopt, Total, Finishes, Logged;
    var s' := Enter(cfg, s, m, depth);
    var log := s.log[m.sid];
    EnterFrame(cfg, s, m, depth);
    NewFinishes(cfg, s, m, depth);
    TotalAbsent(log, m.srl);
    forall srl | srl in s'.entries[m.sid]
      ensures s'.entries[m.sid][srl].score == Total(log, srl)
      ensures forall n :: Logged(log, srl, n) <==> Finishes(cfg, s'.entries[m.sid][srl], n)
    {
      EnterEntry(cfg, s, m, depth, m.sid, srl);
      assert srl != m.srl ==> Has(s, m.sid, srl);
      if srl == m.srl { NotLoggedYet(log, srl); } else { AdoptFinishes(cfg, At(s, m.sid, srl), m.srl); }
    }
    forall i | 0 <= i < |log| ensures log[i].srl in s'.completed[m.sid] || log[i].srl in s'.entries[m.sid] {
      EnterEntry(cfg, s, m, depth, m.sid, log[i].srl);
      assert log[i].srl in s.completed[m.sid] || Has(s, m.sid, log[i].srl);
    }
  }

  lemma NotLoggedYet(log: seq<Finished>, srl: Srl)
    requires forall i | 0 <= i < |log| :: log[i].srl != srl
    ensures forall n :: !Logged(log, srl, n)
  {}

  lemma NewAsked(cfg: Config, log: seq<Finished>, s: State, m: Submission)
    requires forall i | 0 <= i < |log| :: log[i].srl != m.srl
    ensures AsAsked(cfg, log, m.srl, NewEntry(cfg, s, m, if m.psrl.Some? then m.depth + 1 else 0), m)
  {}

  lemma AdoptAsked(cfg: Config, log: seq<Finished>, srl: Srl, e: Entry, m: Submission, kid: Srl)
    requires AsAsked(cfg, log, srl, e, m)
    ensures AsAsked(cfg, log, srl, Adopt(e, kid), m)
  {
    hide SaidDrop;
  }

  /** The depth of a new file: one more than its message says, or 0 for a root. */
  function DepthOf(m: Submission): int {
    if m.psrl.Some? then m.depth + 1 else 0
  }

  lemma AskedJoins(cfg: Config, s: State, s': State, sid: Sid, srl: Srl, m: Submission)
    requires sid in s.entries && sid in s.completed && sid in s.log && sid in s.asked && AskedOk(cfg, s, sid)
    requires sid in s'.entries && s'.completed == s.completed && s'.log == s.log && s'.asked == s.asked[sid := s.asked[sid][srl := m]]
    requires srl !in s.completed[sid] && forall x :: x in s'.entries[sid] <==> x in s.entries[sid] || x == srl
    requires forall x | x in s'.entries[sid] && x in s'.asked[sid] :: AsAsked(cfg, s.log[sid], x, s'.entries[sid][x], s'.asked[sid][x])
    ensures AskedOk(cfg, s', sid)
  {
    hide AsAsked, Served;
  }

  lemma EnterAsked(cfg: Config, s: State, m: Submission)
    requires SubOpen(cfg, s, m.sid) && Enters(s, m)
    ensures var r := Enter(cfg, s, m, DepthOf(m));
            m.sid in r.entries && m.sid in r.completed && m.sid in r.log && m.sid in r.asked && AskedOk(cfg, r, m.sid)
  {
    hide Best, Keys, Linked, Once, Enter, NewEntry, Adopt, Total, Finishes, Logged, AsAsked, Served;
    var s' := Enter(cfg, s, m, DepthOf(m));
    var log, asked := s.log[m.sid], s.asked[m.sid][m.srl := m];
    EnterFrame(cfg, s, m, DepthOf(m));
    forall srl ensures srl in s'.entries[m.sid] <==> srl in s.entries[m.sid] || srl == m.srl {
      EnterEntry(cfg, s, m, DepthOf(m), m.sid, srl);
      assert srl in s'.entries[m.sid] <==> Has(s', m.sid, srl);
    }
    NewAsked(cfg, log, s, m);
    forall srl | srl in s'.entries[m.sid] && srl in asked ensures AsAsked(cfg, log, srl, s'.entries[m.sid][srl], asked[srl]) {
      EnterEntry(cfg, s, m, DepthOf(m), m.sid, srl);
      if srl != m.srl {
        assert AsAsked(cfg, log, srl, s.entries[m.sid][srl], s.asked[m.sid][srl]);
        AdoptAsked(cfg, log, srl, At(s, m.sid, srl), asked[srl], m.srl);
      }
    }
    hide AskedOk, LogOk;
    AskedJoins(cfg, s, s', m.sid, m.srl, m);
  }

  lemma EnterSub(cfg: Config, s: State, m: Submission, depth: int)
    requires depth == DepthOf(m)
    requires cfg.Valid() && SubOpen(cfg, s, m.sid) && Enters(s, m)
    requires forall srl | srl in s.entries[m.sid] :: s.entries[m.sid][srl].born < s.next
    ensures SubOk(cfg, Enter(cfg, s, m, depth), m.sid)
  {
    hide LogOk, AskedOk, Best, Keys, Linked, Enter, NewEntry, Adopt;
    var s' := Enter(cfg, s, m, depth);
    EnterFrame(cfg, s, m, depth);
    EnterAsked(cfg, s, m);
    EnterLog(cfg, s, m, depth);
    EnterLinked(cfg, s, m, depth);
    EnterEntry(cfg, s, m, depth, m.sid, m.srl);
    NewFinishes(cfg, s, m, depth);
    forall srl | srl in s'.entries[m.sid]
      ensures srl !in s'.completed[m.sid] && forall c | c in s'.entries[m.sid][srl].completedKids :: c in s'.completed[m.sid]
    {
      EnterEntry(cfg, s, m, depth, m.sid, srl);
      if srl != m.srl { AdoptFinishes(cfg, At(s, m.sid, srl), m.srl); }
    }
  }

  lemma NewEntryOk(cfg: Config, s: State, m: Submission, depth: int)
    requires cfg.Valid()
    ensures EntryOk(cfg, NewEntry(cfg, s, m, depth))
  {
    var e := NewEntry(cfg, s, m, depth);
    forall st | 0 <= st <= cfg.Done() ensures StageOk(cfg, e, st) {
      assert Chosen(cfg, e.selected, 0) == {};
    }
  }

  lemma AdoptOk(cfg: Config, e: Entry, kid: Srl)
    requires EntryOk(cfg, e)
    ensures EntryOk(cfg, Adopt(e, kid))
  {
    forall st | 0 <= st <= cfg.Done() ensures StageOk(cfg, Adopt(e, kid), st) { assert StageOk(cfg, e, st); }
  }

  lemma NewHeld(cfg: Config, s: State, r: State, m: Submission, depth: int)
    requires cfg.Valid()
    ensures HeldOk(cfg, r, m.sid, m.srl, NewEntry(cfg, s, m, depth), Focus(m.sid, m.srl, {}))
  {
    NewEntryOk(cfg, s, m, depth);
    assert forall st | 0 <= st <= cfg.Done() :: Nothing(cfg)[st] == {};
    hide EntryOk, Armed, Tabled, Nothing;
  }

  lemma AdoptHeld(cfg: Config, s: State, r: State, sid: Sid, srl: Srl, e: Entry, kid: Srl, f: Focus)
    requires HeldOk(cfg, s, sid, srl, e, NoFocus) && f.Todo(sid, srl) == {}
    requires r.ackT == s.ackT && r.svcT == s.svcT && r.childT == s.childT && r.pending == s.pending
    ensures HeldOk(cfg, r, sid, srl, e, f) && HeldOk(cfg, r, sid, srl, Adopt(e, kid), f)
  {
    AdoptOk(cfg, e, kid);
    hide EntryOk, Armed;
  }

  lemma EnterHeld(cfg: Config, s: State, m: Submission, depth: int)
    requires cfg.Valid() && HeldAll(cfg, s, NoFocus) && Enters(s, m)
    ensures HeldAll(cfg, Enter(cfg, s, m, depth), Focus(m.sid, m.srl, {}))
  {
    hide HeldOk, Enter, NewEntry, Adopt;
    var s' := Enter(cfg, s, m, depth);
    var f := Focus(m.sid, m.srl, {});
    EnterFrame(cfg, s, m, depth);
    forall sid, srl | Has(s', sid, srl) ensures HeldOk(cfg, s', sid, srl, At(s', sid, srl), f) {
      EnterEntry(cfg, s, m, depth, sid, srl);
      if sid == m.sid && srl == m.srl {
        NewHeld(cfg, s, s', m, depth);
      } else {
        AdoptHeld(cfg, s, s', sid, srl, At(s, sid, srl), m.srl, f);
      }
    }
  }

  lemma EnterBorn(cfg: Config, s: State, m: Submission, depth: int)
    requires SendsOk(cfg, s) && Enters(s, m)
    ensures var s' := Enter(cfg, s, m, depth);
            forall sid1, srl1, sid2, srl2 :: SameBorn(s', sid1, srl1, sid2, srl2)
  {
    var s' := Enter(cfg, s, m, depth);
    assert forall sid, srl | Has(s, sid, srl) :: SentOk(cfg, s, At(s, sid, srl));
    assert forall sid, srl | Has(s, sid, srl) :: At(s, sid, srl).born < s.next;
    hide SentOk, Enter;
    forall sid, srl ensures BornAs(s, s', m, sid, srl) { EnterBornAs(cfg, s, m, depth, sid, srl); }
    forall sid1, srl1, sid2, srl2 ensures SameBorn(s', sid1, srl1, sid2, srl2) {
      assert SameBorn(s, sid1, srl1, sid2, srl2);
      assert BornAs(s, s', m, sid1, srl1) && BornAs(s, s', m, sid2, srl2);
    }
  }

  /** An entry is the new one, or was there before and was born when it was. */
  ghost predicate BornAs(s: State, s': State, m: Submission, sid: Sid, srl: Srl) {
    Has(s', sid, srl) ==>
      if sid == m.sid && srl == m.srl then At(s', sid, srl).born == s.next
      else Has(s, sid, srl) && At(s', sid, srl).born == At(s, sid, srl).born
  }

  lemma EnterBornAs(cfg: Config, s: State, m: Submission, depth: int, sid: Sid, srl: Srl)
    requires Enters(s, m)
    ensures BornAs(s, Enter(cfg, s, m, depth), m, sid, srl)
  {
    hide Enter, NewEntry, Adopt;
    EnterEntry(cfg, s, m, depth, sid, srl);
    NewLinks(cfg, s, m, depth);
    if Has(s, sid, srl) { AdoptLinks(At(s, sid, srl), m.srl); }
  }

  lemma EnterSends(cfg: Config, s: State, m: Submission, depth: int)
    requires SendsOk(cfg, s) && Enters(s, m)
    ensures SendsOk(cfg, Enter(cfg, s, m, depth))
  {
    var s' := Enter(cfg, s, m, depth);
    EnterBorn(cfg, s, m, depth);
    EnterFrame(cfg, s, m, depth);
    hide SameBorn, Enter;
    forall sid, srl | Has(s', sid, srl) ensures SentOk(cfg, s', At(s', sid, srl)) {
      EnterSent(cfg, s, m, depth, sid, srl);
    }
  }

  lemma EnterSent(cfg: Config, s: State, m: Submission, depth: int, sid: Sid, srl: Srl)
    requires SendsOk(cfg, s) && Enters(s, m) && Has(Enter(cfg, s, m, depth), sid, srl)
    ensures SentOk(cfg, Enter(cfg, s, m, depth), At(Enter(cfg, s, m, depth), sid, srl))
  {
    EnterFrame(cfg, s, m, depth);
    EnterEntry(cfg, s, m, depth, sid, srl);
    hide SameBorn, Enter;
    assert Has(s, sid, srl) ==> SentOk(cfg, s, At(s, sid, srl));
  }

  /** A state in which at most one submission has just been opened and is still empty. */
  ghost predicate Opened(cfg: Config, s: State, sid: Sid) {
    && SubOpen(cfg, s, sid)
    && (forall sid1 | sid1 != sid :: Slot(cfg, s, sid1))
    && HeldAll(cfg, s, NoFocus) && SendsOk(cfg, s) && TablesOk(cfg, s) && Balanced(cfg, s)
  }

  lemma EnterSubAll(cfg: Config, s: State, m: Submission, depth: int)
    requires depth == DepthOf(m)
    requires cfg.Valid() && Opened(cfg, s, m.sid) && Enters(s, m)
    ensures SubAll(cfg, Enter(cfg, s, m, depth))
  {
    var s' := Enter(cfg, s, m, depth);
    hide SubOpen, HeldAll, TablesOk, Balanced, NewEntry, SubOk;
    EnterYounger(cfg, s, m.sid);
    EnterSub(cfg, s, m, depth);
    assert m.sid in s'.entries;
    hide SendsOk, Enter;
    forall sid ensures Slot(cfg, s', sid) {
      if sid != m.sid { EnterElsewhere(cfg, s, m, depth, sid); }
    }
  }

  lemma PutOther(s: State, sid1: Sid, srl: Srl, e: Entry, sid: Sid)
    requires sid1 in s.entries && sid in s.entries && sid != sid1
    ensures sid in Put(s, sid1, srl, e).entries && Put(s, sid1, srl, e).entries[sid] == s.entries[sid]
  {}

  lemma EnterElsewhere(cfg: Config, s: State, m: Submission, depth: int, sid: Sid)
    requires Slot(cfg, s, sid) && Enters(s, m) && sid != m.sid
    ensures Slot(cfg, Enter(cfg, s, m, depth), sid)
  {
    hide SubOk, NewEntry, Adopt, Slot, Put;
    var r := Enter(cfg, s, m, depth);
    EnterFrame(cfg, s, m, depth);
    EnterIs(cfg, s, m, depth);
    hide Enter;
    if sid in s.entries {
      if m.psrl.Some? { PutOther(s, m.sid, m.psrl.value, Adopt(At(s, m.sid, m.psrl.value), m.srl), sid); }
      PutOther(Adopted(s, m), m.sid, m.srl, NewEntry(cfg, s, m, depth), sid);
    }
    SlotElsewhere(cfg, s, r, sid);
  }

  lemma EnterYounger(cfg: Config, s: State, sid: Sid)
    requires SendsOk(cfg, s) && sid in s.entries
    ensures forall srl | srl in s.entries[sid] :: s.entries[sid][srl].born < s.next
  {
    forall srl | srl in s.entries[sid] ensures s.entries[sid][srl].born < s.next {
      assert Has(s, sid, srl) && SentOk(cfg, s, At(s, sid, srl));
    }
  }

  lemma EnterKeeps(cfg: Config, s: State, m: Submission, depth: int)
    requires depth == DepthOf(m)
    requires cfg.Valid() && Opened(cfg, s, m.sid) && Enters(s, m)
    ensures Inv(cfg, Enter(cfg, s, m, depth), Focus(m.sid, m.srl, {}))
  {
    EnterSubAll(cfg, s, m, depth);
    EnterHeld(cfg, s, m, depth);
    EnterSends(cfg, s, m, depth);
    EnterFrame(cfg, s, m, depth);
    hide Enter, NewEntry, FinalOk, Finals;
    SameBalance(cfg, s, Enter(cfg, s, m, depth));
    hide Balanced, SubAll, HeldAll, SendsOk, Timely, Known, SubOpen, Slot, NewEntry;
  }

  lemma OpenKeeps(cfg: Config, s: State, sid: Sid)
    requires Inv(cfg, s, NoFocus) && sid !in s.entries
    ensures Opened(cfg, Open(s, sid), sid)
  {
    var s' := Open(s, sid);
    OpenSub(cfg, s, sid);
    OpenHeld(cfg, s, sid);
    hide SubOpen, HeldAll, SendsOk, Timely, Known, SubOk;
    FewerSends(cfg, s, s');
    OpenOthers(cfg, s, sid);
    hide SubAll, Slot;
    OpenBalanced(cfg, s, sid);
    hide Balanced;
  }

  lemma OpenBalanced(cfg: Config, s: State, sid: Sid)
    requires Balanced(cfg, s) && sid !in s.entries
    ensures Balanced(cfg, Open(s, sid))
  {
    hide FinalOk, Finals;
    forall sid1 ensures Tally(Open(s, sid), sid1) { assert Tally(s, sid1); }
  }

  lemma OpenOthers(cfg: Config, s: State, sid: Sid)
    requires SubAll(cfg, s) && sid !in s.entries
    ensures forall sid1 | sid1 != sid :: Slot(cfg, Open(s, sid), sid1)
  {
    var s' := Open(s, sid);
    hide SubOk;
    forall sid1 | sid1 != sid ensures Slot(cfg, s', sid1) {
      assert Slot(cfg, s, sid1);
      SlotElsewhere(cfg, s, s', sid1);
    }
  }

  /** A submission that has just been opened holds nothing. */
  lemma OpenEmpty(s: State, sid: Sid)
    ensures var r := Open(s, sid);
            && sid in r.entries && sid in r.completed && sid in r.results && sid in r.errors && sid in r.score && sid in r.log && sid in r.asked
            && r.entries[sid] == map[] && r.completed[sid] == map[] && r.results[sid] == [] && r.errors[sid] == []
            && r.score[sid] == None && r.log[sid] == [] && r.asked[sid] == map[] && r.clock == s.clock
  {}

  lemma OpenSub(cfg: Config, s: State, sid: Sid)
    ensures SubOpen(cfg, Open(s, sid), sid)
  {
    OpenEmpty(s, sid);
    hide Open, AsAsked, Served;
  }

  lemma OpenHeld(cfg: Config, s: State, sid: Sid)
    requires HeldAll(cfg, s, NoFocus) && sid !in s.entries
    ensures HeldAll(cfg, Open(s, sid), NoFocus)
  {
    var s' := Open(s, sid);
    forall sid1, srl1 | Has(s', sid1, srl1) ensures HeldOk(cfg, s', sid1, srl1, At(s', sid1, srl1), NoFocus) {
      SameTables(cfg, s, s', sid1, srl1, At(s, sid1, srl1), NoFocus);
    }
  }

  lemma AlreadyOpen(cfg: Config, s: State, sid: Sid)
    requires Inv(cfg, s, NoFocus) && sid in s.entries
    ensures Opened(cfg, s, sid)
  {
    assert Slot(cfg, s, sid);
  }

  // ---- The handler ---------------------------------------------------------------------------

  lemma OpenedCompleted(cfg: Config, s: State, sid: Sid)
    requires Opened(cfg, s, sid)
    ensures sid in s.entries && sid in s.completed
  {}

  lemma HeardClock(s: State, sid: Sid, psrl: Srl, kid: Srl)
    ensures Heard(s, sid, psrl, kid).clock == s.clock
  {}

  /** The state once the parent has heard of the child, with the submission opened if need be. */
  lemma Prepared(cfg: Config, s1: State, m: Submission, depth: int)
    requires depth == DepthOf(m)
    requires Inv(cfg, s1, NoFocus) && cfg.Valid()
    ensures m.sid in s1.entries ==> m.sid in s1.completed
    ensures var s2 := if m.sid in s1.entries then s1 else Open(s1, m.sid);
            && m.sid in s2.entries && m.sid in s2.completed
            && (Enters(s2, m) ==> Inv(cfg, Enter(cfg, s2, m, depth), Focus(m.sid, m.srl, {}))
                                  && Has(Enter(cfg, s2, m, depth), m.sid, m.srl) && Enter(cfg, s2, m, depth).clock == s1.clock)
            && (m.sid !in s1.entries ==> Enters(s2, m) || m.psrl.Some?)
  {
    hide Inv, Opened, NewEntry, Enter, Open;
    InvSlot(cfg, s1, NoFocus, m.sid);
    var s2 := if m.sid in s1.entries then s1 else Open(s1, m.sid);
    if m.sid in s1.entries {
      AlreadyOpen(cfg, s1, m.sid);
    } else {
      OpenKeeps(cfg, s1, m.sid);
      OpenEmpty(s1, m.sid);
    }
    OpenedCompleted(cfg, s2, m.sid);
    if Enters(s2, m) {
      EnterKeeps(cfg, s2, m, depth);
      EnterFrame(cfg, s2, m, depth);
      EnterEntry(cfg, s2, m, depth, m.sid, m.srl);
    }
  }

  lemma ArrivedKeeps(cfg: Config, s: State, m: Submission)
    requires Inv(cfg, s, NoFocus) && cfg.Valid()
    ensures m.sid in s.entries ==> m.sid in s.completed
    ensures var (s', entered) := Arrived(cfg, s, m);
            && Inv(cfg, s', if entered then Focus(m.sid, m.srl, {}) else NoFocus)
            && (entered ==> Has(s', m.sid, m.srl)) && s'.clock == s.clock
  {
    hide Inv, Enter, Open, Heard;
    InvSlot(cfg, s, NoFocus, m.sid);
    var s1 := if m.psrl.Some? then Heard(s, m.sid, m.psrl.value, m.srl) else s;
    if m.psrl.Some? {
      HeardKeeps(cfg, s, m.sid, m.psrl.value, m.srl);
      HeardClock(s, m.sid, m.psrl.value, m.srl);
    }
    Prepared(cfg, s1, m, if m.psrl.Some? then m.depth + 1 else 0);
  }

  /** submitted: create the entry if the file is new and its parent is known, and start it. */
  function Submitted(cfg: Config, s: State, m: Submission, now: real, o: Oracle): State
    requires Inv(cfg, s, NoFocus) && cfg.Valid() && o.Valid() && now == s.clock
  {
    ArrivedKeeps(cfg, s, m);
    var (s1, entered) := Arrived(cfg, s, m);
    if entered then
      InvReady(cfg, s1, Focus(m.sid, m.srl, {}), m.sid);
      Update(cfg, s1, m.sid, m.srl, now, o)
    else s1
  }

  lemma SubmittedKeeps(cfg: Config, s: State, m: Submission, now: real, o: Oracle)
    requires Inv(cfg, s, NoFocus) && cfg.Valid() && o.Valid() && now == s.clock
    ensures Inv(cfg, Submitted(cfg, s, m, now, o), NoFocus)
  {
    hide Inv, Arrived;
    ArrivedKeeps(cfg, s, m);
    var (s1, entered) := Arrived(cfg, s, m);
    if entered { UpdateKeeps(cfg, s1, m.sid, m.srl, now, o); }
  }
}
