/** The dispatcher of al/core/dispatch.py as a state and one function per event. */
module DispatchModel {
  // A submission is identified by a sid and holds one entry per file (srl).  An entry walks the stages
  // 0..Done; at each stage its services move from outstanding to dispatched, acknowledged and completed.
  // Extracted files become child entries, and an entry is only finished once its children are.
  //
  // Dictionaries are maps, lists are sequences, and a per-stage list of dictionaries is a sequence of
  // name sets (None, which stands at stages 0 and Done, is the empty set).  An entry refers to its parent
  // by srl.  Fields that have no counterpart in the program are marked "record": they remember what
  // happened, so that properties of whole runs can be stated, and no decision depends on them.

  import opened Prelude

  datatype Sid = Sid(id: string)
  datatype Srl = Srl(id: string)
  datatype Name = Name(id: string)
  datatype Key = Key(id: string)
  datatype C12n = C12n(text: string)

  datatype Service = Service(stage: nat, timeout: real)

  datatype Config = Config(
    services: map<Name, Service>,
    stages: nat,
    maxRetries: nat,
    maxDepth: int,
    maxFiles: int,
    childSeconds: real,
    updateInterval: real)
  {
    function Done(): nat { stages + 1 }

    ghost predicate Valid() {
      forall n :: n in services ==> 1 <= services[n].stage <= stages
    }
  }

  /** What the program asks of its surroundings during one event: heartbeats, the services' own
      skip rules, and the iteration order of its dictionaries. */
  datatype Oracle = Oracle(
    down: Name -> bool,
    skip: (Srl, Name) -> bool,
    order: set<Name> -> seq<Name>,
    keys: set<real> -> seq<real>)
  {
    ghost predicate Valid() {
      && (forall ns :: Lists(order(ns), ns))
      && (forall ks :: Lists(keys(ks), ks))
    }
  }

  datatype Entry = Entry(
    born: nat,                  // record: creation number of this entry
    parent: Option<Srl>,
    depth: int,
    c12n: C12n,
    stage: nat,
    score: int,
    selected: set<Name>,
    dropAt: Option<nat>,        // task.filter == 'drop', with the stage that said so
    retries: map<Name, nat>,
    completedKids: set<Srl>,
    extracted: set<Srl>,
    outstandingKids: set<Srl>,
    acked: seq<set<Name>>,
    completed: seq<set<Name>>,
    dispatched: seq<set<Name>>,
    outstanding: seq<set<Name>>)

  datatype Timeout<D> = Timeout(sid: Sid, srl: Srl, data: D, time: real)

  /** Timeout lists, keyed by their length in seconds. */
  type Table<D> = map<real, seq<Timeout<D>>>

  datatype Reason = ServiceDown | MaxRetries | MaxDepth | MaxFiles

  datatype StorageMsg =
    | Complete(sid: Sid, score: int)
    | Error(sid: Sid, srl: Srl, name: Name, why: Reason)
    | Finalize(sid: Sid, score: int, results: seq<Key>, errors: seq<Key>, files: map<Srl, C12n>,
               srl: Srl, top: Entry,      // record: the entry that was removed last
               log: seq<Finished>,        // record: the submission's completions
               asked: map<Srl, Submission>) // record: the messages its files came with

  /** A reply the dispatcher itself has caused and not yet received. */
  datatype Reply = Reply(sid: Sid, srl: Srl, name: Name, failed: bool)

  /** One service finishing with one file. */
  datatype Finished = Finished(srl: Srl, name: Name, ok: bool, score: int, key: Option<Key>, drop: bool)

  datatype State = State(
    entries: map<Sid, map<Srl, Entry>>,
    completed: map<Sid, map<Srl, C12n>>,
    results: map<Sid, seq<Key>>,
    errors: map<Sid, seq<Key>>,
    score: map<Sid, Option<int>>,
    queueSize: map<Name, nat>,
    ackT: Table<Name>,
    svcT: Table<Name>,
    childT: Table<Srl>,
    lastCheck: real,
    storage: seq<StorageMsg>,       // everything pushed on storage_queue, in order
    pending: multiset<Reply>,       // record: self-caused replies not yet received
    sent: multiset<(nat, Name)>,    // record: requests sent, by entry and service
    log: map<Sid, seq<Finished>>,   // record: completions of each live submission
    asked: map<Sid, map<Srl, Submission>>, // record: the messages its files came with
    started: multiset<Sid>,          // record: submissions started
    next: nat,                      // record: entries created so far
    clock: real)                    // record: time of the latest event

  const EMPTY: State := State(map[], map[], map[], map[], map[], map[], map[], map[], map[], 0.0,
                              [], multiset{}, multiset{}, map[], map[], multiset{}, 0, 0.0)

  // ---- Reading and writing one entry -------------------------------------------------------

  predicate Has(s: State, sid: Sid, srl: Srl) {
    sid in s.entries && srl in s.entries[sid]
  }

  function At(s: State, sid: Sid, srl: Srl): Entry
    requires Has(s, sid, srl)
  {
    s.entries[sid][srl]
  }

  function Put(s: State, sid: Sid, srl: Srl, e: Entry): State
    requires sid in s.entries
  {
    s.(entries := s.entries[sid := s.entries[sid][srl := e]])
  }

  lemma PutSame(s: State, sid: Sid, srl: Srl, e: Entry)
    requires sid in s.entries
    ensures var r := Put(s, sid, srl, e);
            r == s.(entries := r.entries) && forall x :: x in r.entries <==> x in s.entries
  {}

  lemma PutAt(s: State, sid: Sid, srl: Srl, e: Entry, sid1: Sid, srl1: Srl)
    requires sid in s.entries
    ensures var r := Put(s, sid, srl, e);
            && (Has(r, sid1, srl1) <==> Has(s, sid1, srl1) || (sid1 == sid && srl1 == srl))
            && (Has(r, sid1, srl1) ==> At(r, sid1, srl1) == if sid1 == sid && srl1 == srl then e else At(s, sid1, srl1))
  {}

  /** Append a timeout to the end of its list. */
  function Arm<D>(t: Table<D>, seconds: real, x: Timeout<D>): Table<D> {
    t[seconds := Get(t, seconds, []) + [x]]
  }

  // ---- Well-formedness the step functions rely on ------------------------------------------

  /** The services of `sel` that belong to stage `st`. */
  function Chosen(cfg: Config, sel: set<Name>, st: nat): set<Name> {
    set n | n in sel && n in cfg.services && cfg.services[n].stage == st
  }

  /** The stage tables have one slot per stage and hold known services only. */
  ghost predicate Shaped(cfg: Config, e: Entry) {
    && |e.acked| == |e.completed| == |e.dispatched| == |e.outstanding| == cfg.Done() + 1
    && e.stage <= cfg.Done()
    && forall st | 0 <= st <= cfg.Done() :: e.outstanding[st] <= cfg.services.Keys
  }

  /** The parent of `c`, if it has one, is held, waits for `c`, and is older. */
  ghost predicate Up(files: map<Srl, Entry>, c: Srl) {
    c in files && files[c].parent.Some? ==>
      var p := files[c].parent.value;
      p in files && c in files[p].outstandingKids && files[p].born < files[c].born
  }

  /** Any `c` that `p` waits for is held and has parent `p`. */
  ghost predicate Down(files: map<Srl, Entry>, p: Srl, c: Srl) {
    p in files && c in files[p].outstandingKids ==> c in files && files[c].parent == Some(p)
  }

  /** Parent and outstanding-child links agree, and parents are older than children. */
  ghost predicate Linked(files: map<Srl, Entry>) {
    && (forall c :: Up(files, c))
    && (forall p, c :: Down(files, p, c))
  }

  ghost predicate Ready(cfg: Config, s: State, sid: Sid) {
    && sid in s.entries && sid in s.completed && sid in s.results && sid in s.errors
    && sid in s.score && sid in s.log && sid in s.asked
    && Linked(s.entries[sid])
    && forall srl | srl in s.entries[sid] :: Shaped(cfg, s.entries[sid][srl])
  }

  ghost predicate SameLinks(e: Entry, e': Entry) {
    e'.parent == e.parent && e'.born == e.born && e'.outstandingKids == e.outstandingKids
  }

  /** Links only depend on who is held, parents, births and outstanding children. */
  lemma LinkedAlike(files: map<Srl, Entry>, files': map<Srl, Entry>)
    requires Linked(files) && files'.Keys == files.Keys
    requires forall c | c in files :: SameLinks(files[c], files'[c])
    ensures Linked(files')
  {
    forall c ensures Up(files', c) { assert Up(files, c); }
    forall p, c ensures Down(files', p, c) { assert Down(files, p, c); }
  }

  lemma ReadyPut(cfg: Config, s: State, sid: Sid, srl: Srl, e: Entry)
    requires Ready(cfg, s, sid) && srl in s.entries[sid]
    requires Shaped(cfg, e) && SameLinks(At(s, sid, srl), e)
    ensures Ready(cfg, Put(s, sid, srl, e), sid)
    ensures |Put(s, sid, srl, e).entries[sid]| == |s.entries[sid]|
  {
    LinkedAlike(s.entries[sid], Put(s, sid, srl, e).entries[sid]);
    assert Put(s, sid, srl, e).entries[sid].Keys == s.entries[sid].Keys;
  }

  // ---- Sending one service request (Dispatcher.dispatch) -----------------------------------

  function Seconds(service: Service, queue: nat): real {
    var x := service.timeout * (queue + 5) as real;
    if x < 7200.0 then x else 7200.0
  }

  /** Why a request is not sent, checked in the program's order. */
  function Refusal(cfg: Config, down: bool, tries: nat, depth: int, files: int): Option<Reason> {
    if down then Some(ServiceDown)
    else if tries > cfg.maxRetries then Some(MaxRetries)
    else if tries >= 1 then None
    else if depth > cfg.maxDepth then Some(MaxDepth)
    else if files > cfg.maxFiles then Some(MaxFiles)
    else None
  }

  function Tries(e: Entry, name: Name): nat {
    if name in e.retries then e.retries[name] + 1 else 0
  }

  /** One more attempt at a service: its retry counter and queue size go up. */
  function Tried(s: State, sid: Sid, srl: Srl, name: Name): (r: State)
    requires Has(s, sid, srl)
    ensures Has(r, sid, srl) && r.completed == s.completed
  {
    var e := At(s, sid, srl);
    Put(s, sid, srl, e.(retries := e.retries[name := Tries(e, name)]))
      .(queueSize := s.queueSize[name := Get(s.queueSize, name, 0) + 1])
  }

  datatype Outcome = Refused(why: Reason) | Skipped | Requested(seconds: real)

  function Decide(cfg: Config, s: State, sid: Sid, srl: Srl, name: Name, o: Oracle): Outcome
    requires Has(s, sid, srl) && sid in s.completed && name in cfg.services
  {
    var e := At(s, sid, srl);
    var files := |s.entries[sid]| + |s.completed[sid]|;
    match Refusal(cfg, o.down(name), Tries(e, name), e.depth, files)
    case Some(why) => Refused(why)
    case None =>
      if o.skip(srl, name) then Skipped
      else Requested(Seconds(cfg.services[name], Get(s.queueSize, name, 0) + 1))
  }

  /** A refusal is recorded as an error, a skip answered at once; a request gets an ack timeout. */
  function Effect(s: State, sid: Sid, srl: Srl, born: nat, name: Name, out: Outcome, now: real): (r: State)
    ensures r.entries == s.entries && r.completed == s.completed
  {
    match out
    case Refused(why) =>
      s.(storage := s.storage + [Error(sid, srl, name, why)],
         pending := s.pending + multiset{Reply(sid, srl, name, true)})
    case Skipped =>
      s.(pending := s.pending + multiset{Reply(sid, srl, name, false)})
    case Requested(seconds) =>
      s.(sent := s.sent + multiset{(born, name)},
         ackT := Arm(s.ackT, seconds, Timeout(sid, srl, name, now + seconds)))
  }

  function Dispatch(cfg: Config, s: State, sid: Sid, srl: Srl, name: Name, now: real, o: Oracle): (r: State)
    requires Has(s, sid, srl) && sid in s.completed && name in cfg.services
    ensures Has(r, sid, srl) && r.completed == s.completed
  {
    Effect(Tried(s, sid, srl, name), sid, srl, At(s, sid, srl).born, name, Decide(cfg, s, sid, srl, name, o), now)
  }

  function DispatchAll(cfg: Config, s: State, sid: Sid, srl: Srl, names: seq<Name>, now: real, o: Oracle): State
    requires Has(s, sid, srl) && sid in s.completed
    requires forall n | n in names :: n in cfg.services
    decreases |names|
  {
    if names == [] then s
    else DispatchAll(cfg, Dispatch(cfg, s, sid, srl, names[0], now, o), sid, srl, names[1..], now, o)
  }

  // ---- Moving an entry on, and removing it (UpdateEntry and RemoveEntry) --------------------

  /** The first stage from `stage` on that still has work, or Done. */
  function NextStage(cfg: Config, e: Entry, stage: nat): (r: nat)
    requires Shaped(cfg, e) && stage <= cfg.Done()
    ensures stage <= r <= cfg.Done()
    decreases cfg.Done() - stage
  {
    if stage == 0 || (stage != cfg.Done() && e.acked[stage] == {} && e.dispatched[stage] == {} && e.outstanding[stage] == {})
    then NextStage(cfg, e, stage + 1)
    else stage
  }

  function Better(best: Option<int>, score: int): bool {
    best.None? || score > best.value
  }

  function Finish(s: State, sid: Sid, srl: Srl): State
    requires Has(s, sid, srl) && sid in s.completed && sid in s.score
  {
    var e := At(s, sid, srl);
    s.(entries := s.entries[sid := s.entries[sid] - {srl}],
       completed := s.completed[sid := s.completed[sid][srl := e.c12n]],
       score := if Better(s.score[sid], e.score) then s.score[sid := Some(e.score)] else s.score)
  }

  /** The parent `e` of a child that has finished. */
  function KidDone(e: Entry, kid: Srl): Entry {
    e.(outstandingKids := e.outstandingKids - {kid},
       completedKids := if kid in e.outstandingKids then e.completedKids + {kid} else e.completedKids)
  }

  /** The final record of a submission, pushed when its last entry `e` is gone. */
  function FinalRecord(s: State, sid: Sid, srl: Srl, e: Entry): StorageMsg
    requires sid in s.completed && sid in s.results && sid in s.errors && sid in s.score && sid in s.log && sid in s.asked
  {
    Finalize(sid, s.score[sid].GetOr(0), s.results[sid], s.errors[sid], s.completed[sid], srl, e, s.log[sid], s.asked[sid])
  }

  /** Push the final record of a submission and forget it. */
  function Close(s: State, sid: Sid, srl: Srl, e: Entry): State
    requires sid in s.completed && sid in s.results && sid in s.errors && sid in s.score && sid in s.log && sid in s.asked
  {
    s.(entries := s.entries - {sid},
       completed := s.completed - {sid},
       results := s.results - {sid},
       errors := s.errors - {sid},
       score := s.score - {sid},
       log := s.log - {sid},
       asked := s.asked - {sid},
       storage := s.storage + [FinalRecord(s, sid, srl, e)])
  }

  function Update(cfg: Config, s: State, sid: Sid, srl: Srl, now: real, o: Oracle): State
    requires Ready(cfg, s, sid) && srl in s.entries[sid] && o.Valid()
    decreases |s.entries[sid]|, 1
  {
    var e := At(s, sid, srl);
    var stage := NextStage(cfg, e, e.stage);
    var s1 := Put(s, sid, srl, e.(stage := stage));
    if stage == cfg.Done() then
      if e.outstandingKids != {} || e.extracted != {} then s1
      else
        ReadyPut(cfg, s, sid, srl, e.(stage := stage));
        Remove(cfg, s1, sid, srl, now, o)
    else if e.dispatched[stage] != {} then s1
    else
      var todo := e.outstanding[stage];
      var e1 := e.(stage := stage, dispatched := e.dispatched[stage := todo], outstanding := e.outstanding[stage := {}]);
      DispatchAll(cfg, Put(s, sid, srl, e1), sid, srl, o.order(todo), now, o)
  }

  function Remove(cfg: Config, s: State, sid: Sid, srl: Srl, now: real, o: Oracle): State
    requires Ready(cfg, s, sid) && srl in s.entries[sid] && o.Valid()
    requires At(s, sid, srl).outstandingKids == {}
    decreases |s.entries[sid]|, 0
  {
    var e := At(s, sid, srl);
    var s1 := Finish(s, sid, srl);
    if e.parent.Some? then
      WithoutLinked(s.entries[sid], srl);
      var p := e.parent.value;
      var s2 := Put(s1, sid, p, KidDone(At(s1, sid, p), srl));
      assert s2.entries[sid] == Without(s.entries[sid], srl);
      Update(cfg, s2, sid, p, now, o)
    else
      var s2 := s1.(storage := s1.storage + [Complete(sid, s1.score[sid].GetOr(0))]);
      if s2.entries[sid] != map[] then s2
      else Close(s2, sid, srl, e)
  }

  /** A submission's files once the childless `srl` is gone and its parent has been told. */
  function Without(files: map<Srl, Entry>, srl: Srl): map<Srl, Entry>
    requires srl in files && files[srl].parent.Some? && files[srl].parent.value in files && files[srl].parent != Some(srl)
  {
    var p := files[srl].parent.value;
    (files - {srl})[p := KidDone(files[p], srl)]
  }

  /** Removing a childless entry and telling its parent leaves the links intact. */
  lemma WithoutLinked(files: map<Srl, Entry>, srl: Srl)
    requires Linked(files) && srl in files && files[srl].outstandingKids == {} && files[srl].parent.Some?
    ensures files[srl].parent.value in files && files[srl].parent != Some(srl)
    ensures Linked(Without(files, srl)) && |Without(files, srl)| < |files|
  {
    assert Up(files, srl);
    var p := files[srl].parent.value;
    var files' := Without(files, srl);
    assert files'.Keys == files.Keys - {srl};
    assert |files'.Keys| == |files.Keys| - 1;
    forall c ensures Up(files', c) {
      assert Up(files, c);
      if c in files' && files[c].parent == Some(srl) { assert false; }
    }
    forall q, c ensures Down(files', q, c) {
      assert Down(files, q, c);
    }
  }

  // ---- Events --------------------------------------------------------------------------------

  datatype Status = Ok | FailRecoverable | FailOther

  datatype Submission = Submission(
    sid: Sid, srl: Srl, psrl: Option<Srl>, depth: int, c12n: C12n,
    select: set<Name>,      // what determine_services settles on for this file
    queueOk: bool)          // task.dispatch_queue is this dispatcher's response queue

  datatype Response = Response(
    sid: Sid, srl: Srl, name: Name, status: Status, key: Option<Key>, score: int,
    drop: bool,             // filter == 'drop' and not ignore_filtering
    extracted: seq<Srl>,
    queueOk: bool)

  function Tabled(cfg: Config, sel: set<Name>): seq<set<Name>> {
    seq(cfg.Done() + 1, st requires 0 <= st => Chosen(cfg, sel, st))
  }

  function Nothing(cfg: Config): seq<set<Name>> {
    seq(cfg.Done() + 1, st => {})
  }

  function NewEntry(cfg: Config, s: State, m: Submission, depth: int): Entry {
    var sel := m.select * cfg.services.Keys;
    Entry(s.next, m.psrl, depth, m.c12n, 0, 0, sel, None, map[], {}, {}, {},
          Nothing(cfg), Nothing(cfg), Nothing(cfg), Tabled(cfg, sel))
  }

  /** CreateEntry's link from the parent to the new child. */
  function Adopt(e: Entry, kid: Srl): Entry {
    if kid !in e.outstandingKids && kid !in e.completedKids
    then e.(outstandingKids := e.outstandingKids + {kid})
    else e
  }

  /** Forget that `kid` was announced: its submission has arrived. */
  function Heard(s: State, sid: Sid, psrl: Srl, kid: Srl): State {
    if Has(s, sid, psrl) then
      var p := At(s, sid, psrl);
      Put(s, sid, psrl, p.(extracted := p.extracted - {kid}))
    else s
  }

  function Open(s: State, sid: Sid): State {
    s.(entries := s.entries[sid := map[]],
       completed := s.completed[sid := map[]],
       errors := s.errors[sid := []],
       results := s.results[sid := []],
       score := s.score[sid := None],
       log := s.log[sid := []],
       asked := s.asked[sid := map[]],
       started := s.started + multiset{sid})
  }

  /** The state with the new entry in place, before its first update. */
  function Enter(cfg: Config, s: State, m: Submission, depth: int): State
    requires m.sid in s.entries
    requires m.psrl.Some? ==> m.psrl.value in s.entries[m.sid]
  {
    var s1 := if m.psrl.Some?
              then Put(s, m.sid, m.psrl.value, Adopt(At(s, m.sid, m.psrl.value), m.srl))
              else s;
    Put(s1, m.sid, m.srl, NewEntry(cfg, s, m, depth))
      .(next := s.next + 1, asked := s.asked[m.sid := Get(s.asked, m.sid, map[])[m.srl := m]])
  }

  /** Dispatcher.submitted up to the creation of the entry; None when no entry is created. */
  function Arrived(cfg: Config, s: State, m: Submission): (State, bool)
    requires m.sid in s.entries ==> m.sid in s.completed
  {
    if m.psrl.Some? && !m.queueOk then (s, false)
    else
      var depth := if m.psrl.Some? then m.depth + 1 else 0;
      var s1 := if m.psrl.Some? then Heard(s, m.sid, m.psrl.value, m.srl) else s;
      if m.sid !in s1.entries && m.psrl.Some? then (s1, false)
      else
        var s2 := if m.sid in s1.entries then s1 else Open(s1, m.sid);
        if m.srl in s2.entries[m.sid] || m.srl in s2.completed[m.sid] then (s2, false)
        else if m.psrl.Some? && m.psrl.value !in s2.entries[m.sid] then (s2, false)
        else (Enter(cfg, s2, m, depth), true)
  }

  function Acknowledged(cfg: Config, s: State, sid: Sid, srl: Srl, name: Name, seconds: real, now: real): State
    requires sid in s.entries ==> Ready(cfg, s, sid)
    requires cfg.Valid()
  {
    if !Has(s, sid, srl) || name !in cfg.services then s
    else
      var e := At(s, sid, srl);
      var st := cfg.services[name].stage;
      if name !in e.dispatched[st] then s
      else
        var e1 := e.(dispatched := e.dispatched[st := e.dispatched[st] - {name}],
                     acked := e.acked[st := e.acked[st] + {name}]);
        Put(s, sid, srl, e1).(svcT := Arm(s.svcT, seconds, Timeout(sid, srl, name, now + seconds)))
  }

  /** Whether a timeout or a recoverable failure leads to another request: the service is neither
      completed nor, for an ack timeout, acknowledged. */
  predicate Resend(cfg: Config, s: State, ack: bool, sid: Sid, srl: Srl, name: Name)
    requires sid in s.entries ==> Ready(cfg, s, sid)
    requires cfg.Valid() && name in cfg.services
  {
    Has(s, sid, srl) &&
    var e := At(s, sid, srl);
    var st := cfg.services[name].stage;
    name !in e.completed[st] && (ack ==> name !in e.acked[st])
  }

  /** The entry once a service has answered, before children are recorded. */
  function Answered(cfg: Config, e: Entry, m: Response, st: nat): Entry
    requires Shaped(cfg, e) && st <= cfg.Done()
  {
    var e1 := e.(completed := e.completed[st := e.completed[st] + {m.name}],
                 acked := e.acked[st := e.acked[st] - {m.name}],
                 dispatched := e.dispatched[st := e.dispatched[st] - {m.name}],
                 score := if m.status.Ok? then e.score + m.score else e.score);
    if m.drop
    then e1.(dropAt := Some(st), dispatched := Cleared(e1.dispatched, st), outstanding := Cleared(e1.outstanding, st))
    else e1
  }

  /** Empty every slot beyond `st`. */
  function Cleared(t: seq<set<Name>>, st: nat): seq<set<Name>> {
    seq(|t|, i requires 0 <= i < |t| => if i > st then {} else t[i])
  }

  /** Remember an announced child not seen yet, with a child timeout. */
  function Noted(cfg: Config, s: State, sid: Sid, srl: Srl, kid: Srl, now: real): (r: State)
    requires Has(s, sid, srl) && sid in s.completed
    ensures Has(r, sid, srl) && r.completed == s.completed
  {
    var e := At(s, sid, srl);
    if kid in e.outstandingKids || kid in e.completedKids || kid in s.completed[sid] || kid in s.entries[sid] then s
    else Put(s, sid, srl, e.(extracted := e.extracted + {kid}))
         .(childT := Arm(s.childT, cfg.childSeconds, Timeout(sid, srl, kid, now + cfg.childSeconds)))
  }

  /** Remember all announced children. */
  function Announce(cfg: Config, s: State, sid: Sid, srl: Srl, kids: seq<Srl>, now: real): State
    requires Has(s, sid, srl) && sid in s.completed
    decreases |kids|
  {
    if kids == [] then s else Announce(cfg, Noted(cfg, s, sid, srl, kids[0], now), sid, srl, kids[1..], now)
  }

  function FinishedBy(m: Response): Finished {
    Finished(m.srl, m.name, m.status.Ok?, m.score, m.key, m.drop)
  }

  /** Append a cache key to a submission's list, if there is one and it belongs there. */
  function AddKey(lists: map<Sid, seq<Key>>, sid: Sid, key: Option<Key>, here: bool): map<Sid, seq<Key>>
    requires sid in lists
  {
    lists[sid := lists[sid] + if here && key.Some? then [key.value] else []]
  }

  /** What an awaited reply changes, before announced children are noted. */
  function Recorded(cfg: Config, s: State, m: Response): State
    requires Has(s, m.sid, m.srl) && Shaped(cfg, At(s, m.sid, m.srl))
    requires m.sid in s.log && m.sid in s.results && m.sid in s.errors
    requires cfg.Valid() && m.name in cfg.services
  {
    var e := Answered(cfg, At(s, m.sid, m.srl), m, cfg.services[m.name].stage);
    Put(s, m.sid, m.srl, e)
      .(log := s.log[m.sid := s.log[m.sid] + [FinishedBy(m)]],
        results := AddKey(s.results, m.sid, m.key, m.status.Ok?),
        errors := AddKey(s.errors, m.sid, m.key, !m.status.Ok?))
  }

  function Credit(cfg: Config, s: State, m: Response, now: real): State
    requires Ready(cfg, s, m.sid) && Has(s, m.sid, m.srl)
    requires cfg.Valid() && m.name in cfg.services
  {
    var s1 := Recorded(cfg, s, m);
    if m.status.Ok? then Announce(cfg, s1, m.sid, m.srl, m.extracted, now) else s1
  }

  /** One less request on a service's queue, as far as the dispatcher knows. */
  function Dequeued(s: State, name: Name): State {
    if Get(s.queueSize, name, 0) > 0 then s.(queueSize := s.queueSize[name := s.queueSize[name] - 1]) else s
  }

  /** The service is dispatched or acknowledged, at its own stage. */
  predicate Waits(cfg: Config, e: Entry, n: Name) {
    && n in cfg.services
    && var st := cfg.services[n].stage;
       st < |e.acked| && st < |e.dispatched| && (n in e.acked[st] || n in e.dispatched[st])
  }

  /** The file is held, and waits for the service. */
  predicate Awaited(cfg: Config, s: State, sid: Sid, srl: Srl, name: Name) {
    Has(s, sid, srl) && Waits(cfg, At(s, sid, srl), name)
  }
}
