/** The invariant of the dispatcher. */
module DispatchInvariant {
  // `Inv(cfg, s, f)` says that state `s` is consistent, except that the entry in focus `f` may still
  // have to be moved on, and that its services in `f.todo` may still have to be sent.  Between events
  // there is no focus.

  import opened Prelude
  import opened DispatchModel

  datatype Focus = NoFocus | Focus(sid: Sid, srl: Srl, todo: set<Name>) {
    predicate On(sid: Sid, srl: Srl) { Focus? && this.sid == sid && this.srl == srl }
    function Todo(sid: Sid, srl: Srl): set<Name> { if On(sid, srl) then todo else {} }
  }

  // ---- Something will still happen ----------------------------------------------------------

  predicate Names<D(==)>(x: Timeout<D>, sid: Sid, srl: Srl, d: D) {
    x.sid == sid && x.srl == srl && x.data == d
  }

  /** A timeout for `d` on this file is in the table. */
  ghost predicate Armed<D>(t: Table<D>, sid: Sid, srl: Srl, d: D) {
    exists k, i :: k in t && 0 <= i < |t[k]| && Names(t[k][i], sid, srl, d)
  }

  /** The dispatcher has caused a reply of this service for this file. */
  predicate Owed(pending: multiset<Reply>, sid: Sid, srl: Srl, n: Name) {
    Reply(sid, srl, n, true) in pending || Reply(sid, srl, n, false) in pending
  }

  // ---- One entry ----------------------------------------------------------------------------

  /** The services of stage `st`: selected once, never in two places, and moving only while the
      entry is at `st`. */
  ghost predicate StageOk(cfg: Config, e: Entry, st: nat)
    requires |e.acked| == |e.completed| == |e.dispatched| == |e.outstanding| == cfg.Done() + 1
    requires st <= cfg.Done()
  {
    var o, d, a, c := e.outstanding[st], e.dispatched[st], e.acked[st], e.completed[st];
    && o !! d !! a !! c
    && o + d + a + c == (if e.dropAt.None? || st <= e.dropAt.value then Chosen(cfg, e.selected, st) else {})
    && (st != e.stage ==> d == {} && a == {})
    && (st <= e.stage ==> o == {})
    && (st > e.stage ==> c == {})
  }

  ghost predicate EntryOk(cfg: Config, e: Entry) {
    && |e.acked| == |e.completed| == |e.dispatched| == |e.outstanding| == cfg.Done() + 1
    && e.stage <= cfg.Done()
    && e.selected <= cfg.services.Keys
    && (e.dropAt.Some? ==> e.dropAt.value <= e.stage)
    && forall st | 0 <= st <= cfg.Done() :: StageOk(cfg, e, st)
  }

  /** Every service being waited for has a timeout or a reply coming, save those in `todo`. */
  ghost predicate Covered(s: State, sid: Sid, srl: Srl, e: Entry, todo: set<Name>) {
    && (forall st, n | 0 <= st < |e.dispatched| && n in e.dispatched[st] && n !in todo ::
          Armed(s.ackT, sid, srl, n) || Owed(s.pending, sid, srl, n))
    && (forall st, n | 0 <= st < |e.acked| && n in e.acked[st] ::
          Armed(s.svcT, sid, srl, n) || Owed(s.pending, sid, srl, n))
    && (forall c | c in e.extracted :: Armed(s.childT, sid, srl, c))
  }

  /** The entry waits for something: a service, or, once Done, a child. */
  ghost predicate Settled(cfg: Config, s: State, sid: Sid, srl: Srl, e: Entry)
    requires EntryOk(cfg, e)
  {
    && e.stage >= 1
    && (e.stage < cfg.Done() ==> e.dispatched[e.stage] + e.acked[e.stage] != {})
    && (e.stage == cfg.Done() ==> e.outstandingKids != {} || exists c :: Armed(s.childT, sid, srl, c))
  }

  /** Requests sent for this entry are accounted for by its retry counters. */
  ghost predicate SentOk(cfg: Config, s: State, e: Entry) {
    && e.born < s.next
    && forall n :: s.sent[(e.born, n)] <= (if n in e.retries then Min(e.retries[n], cfg.maxRetries) + 1 else 0)
  }

  ghost predicate HeldOk(cfg: Config, s: State, sid: Sid, srl: Srl, e: Entry, f: Focus) {
    && EntryOk(cfg, e)
    && Covered(s, sid, srl, e, f.Todo(sid, srl))
    && (f.On(sid, srl) || Settled(cfg, s, sid, srl, e))
  }

  // ---- One submission -----------------------------------------------------------------------

  /** The total of the scores of the services that succeeded on a file. */
  function Total(log: seq<Finished>, srl: Srl): int {
    if log == [] then 0
    else
      var r := log[|log| - 1];
      Total(log[..|log| - 1], srl) + if r.srl == srl && r.ok then r.score else 0
  }

  /** The cache keys recorded by completions that did, or did not, succeed. */
  function Keys(log: seq<Finished>, ok: bool): seq<Key> {
    if log == [] then []
    else
      var r := log[|log| - 1];
      Keys(log[..|log| - 1], ok) + if r.ok == ok && r.key.Some? then [r.key.value] else []
  }

  /** No service completes twice on the same file. */
  ghost predicate Once(log: seq<Finished>) {
    forall i, j | 0 <= i < j < |log| :: log[i].srl != log[j].srl || log[i].name != log[j].name
  }

  ghost predicate Logged(log: seq<Finished>, srl: Srl, n: Name) {
    exists i :: 0 <= i < |log| && log[i].srl == srl && log[i].name == n
  }

  /** `best` is the greatest total of the files in `done`, None when there are none. */
  ghost predicate Best(log: seq<Finished>, done: map<Srl, C12n>, best: Option<int>) {
    && (best.None? <==> done == map[])
    && (best.Some? ==> exists f :: f in done && Total(log, f) == best.value)
    && (best.Some? ==> forall f | f in done :: Total(log, f) <= best.value)
  }

  ghost predicate Finishes(cfg: Config, e: Entry, n: Name) {
    n in cfg.services && cfg.services[n].stage < |e.completed| && n in e.completed[cfg.services[n].stage]
  }

  ghost predicate LogOk(cfg: Config, s: State, sid: Sid)
    requires sid in s.entries && sid in s.completed && sid in s.log
  {
    var log := s.log[sid];
    && Once(log)
    && (forall i | 0 <= i < |log| :: log[i].srl in s.completed[sid] || log[i].srl in s.entries[sid])
    && (forall srl, n | srl in s.entries[sid] :: Logged(log, srl, n) <==> Finishes(cfg, s.entries[sid][srl], n))
    && (forall srl | srl in s.entries[sid] :: s.entries[sid][srl].score == Total(log, srl))
  }

  // ---- What a file was submitted for -----------------------------------------------------------

  /** The completion is of file `srl`, at stage `st`, and asked to drop it. */
  ghost predicate AsksDrop(cfg: Config, r: Finished, srl: Srl, st: nat) {
    r.srl == srl && r.drop && r.name in cfg.services && cfg.services[r.name].stage == st
  }

  /** A service of stage `st` has asked to drop the file. */
  ghost predicate SaidDrop(cfg: Config, log: seq<Finished>, srl: Srl, st: nat) {
    exists i :: 0 <= i < |log| && AsksDrop(cfg, log[i], srl, st)
  }

  ghost predicate DroppedBefore(cfg: Config, log: seq<Finished>, srl: Srl, st: nat) {
    exists d: nat :: d < st && SaidDrop(cfg, log, srl, d)
  }

  /** The services that have completed on the file are those it was submitted for, in the stages up to
      that of a drop. */
  ghost predicate Served(cfg: Config, log: seq<Finished>, srl: Srl, m: Submission) {
    forall n :: Logged(log, srl, n) <==> n in m.select && n in cfg.services && !DroppedBefore(cfg, log, srl, cfg.services[n].stage)
  }

  /** The entry has what its file was submitted with, and the drop its services asked for. */
  ghost predicate AsAsked(cfg: Config, log: seq<Finished>, srl: Srl, e: Entry, m: Submission) {
    && e.selected == m.select * cfg.services.Keys && e.c12n == m.c12n && e.parent == m.psrl
    && e.depth == (if m.psrl.Some? then m.depth + 1 else 0)
    && forall st: nat :: SaidDrop(cfg, log, srl, st) <==> e.dropAt == Some(st)
  }

  ghost predicate AskedOk(cfg: Config, s: State, sid: Sid)
    requires sid in s.entries && sid in s.completed && sid in s.log && sid in s.asked
  {
    var log, asked := s.log[sid], s.asked[sid];
    && (forall srl :: srl in asked <==> srl in s.entries[sid] || srl in s.completed[sid])
    && (forall srl | srl in s.entries[sid] && srl in asked :: AsAsked(cfg, log, srl, s.entries[sid][srl], asked[srl]))
    && (forall srl | srl in s.completed[sid] && srl in asked :: s.completed[sid][srl] == asked[srl].c12n && Served(cfg, log, srl, asked[srl]))
  }

  /** What holds of a submission from the moment it is opened. */
  ghost predicate SubOpen(cfg: Config, s: State, sid: Sid) {
    && sid in s.entries && sid in s.completed && sid in s.results && sid in s.errors
    && sid in s.score && sid in s.log && sid in s.asked
    && (forall srl | srl in s.entries[sid] :: srl !in s.completed[sid])
    && Linked(s.entries[sid])
    && (forall srl, c | srl in s.entries[sid] && c in s.entries[sid][srl].completedKids :: c in s.completed[sid])
    && LogOk(cfg, s, sid)
    && AskedOk(cfg, s, sid)
    && s.results[sid] == Keys(s.log[sid], true)
    && s.errors[sid] == Keys(s.log[sid], false)
    && Best(s.log[sid], s.completed[sid], s.score[sid])
  }

  ghost predicate SubOk(cfg: Config, s: State, sid: Sid) {
    SubOpen(cfg, s, sid) && s.entries[sid] != map[]
  }

  // ---- The whole state ----------------------------------------------------------------------

  /** A timeout list is in order of time, and nothing in it lies further ahead than its length. */
  ghost predicate Timely<D(!new)>(t: Table<D>, clock: real) {
    && (forall k, i | k in t && 0 <= i < |t[k]| :: t[k][i].time <= clock + k)
    && (forall k, i, j | k in t && 0 <= i < j < |t[k]| :: t[k][i].time <= t[k][j].time)
  }

  ghost predicate Known(cfg: Config, t: Table<Name>) {
    forall k, i | k in t && 0 <= i < |t[k]| :: t[k][i].data in cfg.services
  }

  ghost predicate TablesOk(cfg: Config, s: State) {
    && Timely(s.ackT, s.clock) && Timely(s.svcT, s.clock) && Timely(s.childT, s.clock)
    && Known(cfg, s.ackT) && Known(cfg, s.svcT)
  }

  /** The submissions that have been closed, by the records pushed for them. */
  function Finals(storage: seq<StorageMsg>): multiset<Sid> {
    if storage == [] then multiset{}
    else
      var m := storage[|storage| - 1];
      Finals(storage[..|storage| - 1]) + if m.Finalize? then multiset{m.sid} else multiset{}
  }

  /** A final record is pushed by a root without outstanding children; its cache keys are those of
      the submission's completions, its score is the best total of all its files, and each file has been
      through the services it was submitted for. */
  ghost predicate FinalOk(cfg: Config, m: StorageMsg) {
    m.Finalize? ==>
      && m.top.parent.None? && m.top.outstandingKids == {} && m.srl in m.files
      && Once(m.log)
      && (forall i | 0 <= i < |m.log| :: m.log[i].srl in m.files)
      && m.results == Keys(m.log, true)
      && m.errors == Keys(m.log, false)
      && Best(m.log, m.files, Some(m.score))
      && (forall f :: f in m.asked <==> f in m.files)
      && (forall f | f in m.files && f in m.asked :: m.files[f] == m.asked[f].c12n && Served(cfg, m.log, f, m.asked[f]))
  }

  ghost predicate Tally(s: State, sid: Sid) {
    s.started[sid] == Finals(s.storage)[sid] + if sid in s.entries then 1 else 0
  }

  /** Every submission started is either held or has been closed, and closed correctly. */
  ghost predicate Balanced(cfg: Config, s: State) {
    && (forall sid :: Tally(s, sid))
    && (forall m | m in s.storage :: FinalOk(cfg, m))
  }

  ghost predicate SameBorn(s: State, sid: Sid, srl: Srl, sid': Sid, srl': Srl) {
    Has(s, sid, srl) && Has(s, sid', srl') && At(s, sid, srl).born == At(s, sid', srl').born ==> sid == sid' && srl == srl'
  }

  ghost predicate SendsOk(cfg: Config, s: State) {
    && (forall b, n :: s.sent[(b, n)] <= cfg.maxRetries + 1)
    && (forall b, n :: b >= s.next ==> s.sent[(b, n)] == 0)
    && (forall sid, srl | Has(s, sid, srl) :: SentOk(cfg, s, At(s, sid, srl)))
    && (forall sid, srl, sid', srl' :: SameBorn(s, sid, srl, sid', srl'))
  }

  ghost predicate HeldAll(cfg: Config, s: State, f: Focus) {
    forall sid, srl | Has(s, sid, srl) :: HeldOk(cfg, s, sid, srl, At(s, sid, srl), f)
  }

  /** A submission is consistent, or absent from every dictionary. */
  ghost predicate Slot(cfg: Config, s: State, sid: Sid) {
    if sid in s.entries then SubOk(cfg, s, sid)
    else
      sid !in s.completed && sid !in s.results && sid !in s.errors && sid !in s.score && sid !in s.log && sid !in s.asked
  }

  ghost predicate SubAll(cfg: Config, s: State) {
    forall sid :: Slot(cfg, s, sid)
  }

  ghost predicate Inv(cfg: Config, s: State, f: Focus) {
    && SubAll(cfg, s)
    && HeldAll(cfg, s, f)
    && SendsOk(cfg, s)
    && TablesOk(cfg, s)
    && Balanced(cfg, s)
  }

  lemma EntryShaped(cfg: Config, e: Entry)
    requires EntryOk(cfg, e)
    ensures Shaped(cfg, e)
  {
    forall st | 0 <= st <= cfg.Done() ensures e.outstanding[st] <= cfg.services.Keys {
      assert StageOk(cfg, e, st);
      assert e.outstanding[st] <= Chosen(cfg, e.selected, st);
    }
  }

  lemma InvReady(cfg: Config, s: State, f: Focus, sid: Sid)
    requires Inv(cfg, s, f) && sid in s.entries
    ensures Ready(cfg, s, sid)
  {
    assert Slot(cfg, s, sid);
    forall srl | srl in s.entries[sid] ensures Shaped(cfg, s.entries[sid][srl]) {
      assert Has(s, sid, srl);
      EntryShaped(cfg, At(s, sid, srl));
    }
  }

  lemma EmptyInv(cfg: Config)
    ensures Inv(cfg, EMPTY, NoFocus)
  {}
}
