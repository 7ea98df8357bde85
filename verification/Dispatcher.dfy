/** The Dispatcher object of al/core/dispatch.py, changed in place. */
module DispatcherObject {
  // Dictionaries are updated by loops and mutually recursive methods.  Each method is proved to turn the
  // abstract state into exactly what the corresponding function of the model says, so that what is proved
  // of runs of the model holds of runs of this object.

  import opened Prelude
  import opened DispatchModel
  import opened DispatchInvariant
  import opened DispatchSend
  import opened DispatchUpdate
  import opened DispatchEvents
  import opened DispatchSubmit
  import opened DispatchTimeouts
  import opened DispatchSweep
  import opened DispatchRun
  import opened DispatchScan

  class Dispatcher {
    const cfg: Config
    var entries: map<Sid, map<Srl, Entry>>
    var completed: map<Sid, map<Srl, C12n>>
    var results: map<Sid, seq<Key>>
    var errors: map<Sid, seq<Key>>
    var score: map<Sid, Option<int>>
    var queueSize: map<Name, nat>
    var ackT: Table<Name>
    var svcT: Table<Name>
    var childT: Table<Srl>
    var lastCheck: real
    var storage: seq<StorageMsg>
    // records
    var pending: multiset<Reply>
    var sent: multiset<(nat, Name)>
    var log: map<Sid, seq<Finished>>
    var asked: map<Sid, map<Srl, Submission>>
    var started: multiset<Sid>
    var next: nat
    var clock: real

    function Abs(): State
      reads this
    {
      State(entries, completed, results, errors, score, queueSize, ackT, svcT, childT, lastCheck,
            storage, pending, sent, log, asked, started, next, clock)
    }

    /** The object is consistent, between events. */
    ghost predicate Valid()
      reads this
    {
      cfg.Valid() && Inv(cfg, Abs(), NoFocus)
    }

    constructor (cfg: Config)
      requires cfg.Valid()
      ensures this.cfg == cfg && Abs() == EMPTY && Valid()
    {
      this.cfg := cfg;
      entries, completed, results, errors, score, queueSize := map[], map[], map[], map[], map[], map[];
      ackT, svcT, childT, lastCheck := map[], map[], map[], 0.0;
      storage, pending, sent, log, asked, started, next, clock := [], multiset{}, multiset{}, map[], map[], multiset{}, 0, 0.0;
      new;
      EmptyInv(cfg);
    }

    /** The part of dispatch that counts the attempt. */
    method CountTry(sid: Sid, srl: Srl, name: Name) returns (queue: nat, tries: nat)
      requires Has(Abs(), sid, srl)
      modifies this
      ensures Abs() == Tried(old(Abs()), sid, srl, name)
      ensures queue == Get(old(queueSize), name, 0) + 1 && tries == Tries(old(entries)[sid][srl], name)
    {
      queue := Get(queueSize, name, 0) + 1;
      queueSize := queueSize[name := queue];
      var e := entries[sid][srl];
      tries := if name in e.retries then e.retries[name] + 1 else 0;
      assert tries == Tries(e, name);
      hide Tries;
      entries := entries[sid := entries[sid][srl := e.(retries := e.retries[name := tries])]];
    }

    /** The part of dispatch that refuses, skips or sends. */
    method Act(sid: Sid, srl: Srl, born: nat, name: Name, out: Outcome, now: real)
      modifies this
      ensures Abs() == Effect(old(Abs()), sid, srl, born, name, out, now)
    {
      match out {
        case Refused(why) =>
          Refuse(Error(sid, srl, name, why), Reply(sid, srl, name, true));
        case Skipped =>
          pending := pending + multiset{Reply(sid, srl, name, false)};
        case Requested(seconds) =>
          Request(born, Timeout(sid, srl, name, now + seconds), seconds);
      }
    }

    /** An error record, whose reply the dispatcher will hear itself. */
    method Refuse(m: StorageMsg, r: Reply)
      modifies this
      ensures Abs() == old(Abs()).(storage := old(storage) + [m], pending := old(pending) + multiset{r})
    {
      storage := storage + [m];
      pending := pending + multiset{r};
    }

    /** A request to a service, with its ack timeout. */
    method Request(born: nat, x: Timeout<Name>, seconds: real)
      modifies this
      ensures Abs() == old(Abs()).(sent := old(sent) + multiset{(born, x.data)}, ackT := Arm(old(ackT), seconds, x))
    {
      sent := sent + multiset{(born, x.data)};
      ackT := Arm(ackT, seconds, x);
    }

    /** dispatch: send a request, or note at once why it is not sent. */
    method Dispatch(sid: Sid, srl: Srl, name: Name, now: real, o: Oracle) returns (ok: bool)
      requires Has(Abs(), sid, srl) && sid in completed && name in cfg.services
      modifies this
      ensures Abs() == DispatchModel.Dispatch(cfg, old(Abs()), sid, srl, name, now, o)
      ensures ok == Decide(cfg, old(Abs()), sid, srl, name, o).Requested?
    {
      ghost var s := Abs();
      var e := entries[sid][srl];
      var files := |entries[sid]| + |completed[sid]|;
      var queue, tries := CountTry(sid, srl, name);
      var out: Outcome;
      var why := Refusal(cfg, o.down(name), tries, e.depth, files);
      if why.Some? {
        out := Refused(why.value);
      } else if o.skip(srl, name) {
        out := Skipped;
      } else {
        out := Requested(Seconds(cfg.services[name], queue));
      }
      assert out == Decide(cfg, s, sid, srl, name, o);
      hide Decide, Refusal, Effect, Tried, Put, Seconds;
      Act(sid, srl, e.born, name, out, now);
      return out.Requested?;
    }

    /** UpdateEntry: walk finished stages, then remove the entry, wait, or send the next stage. */
    method UpdateEntry(sid: Sid, srl: Srl, now: real, o: Oracle) returns (done: bool)
      requires Ready(cfg, Abs(), sid) && srl in entries[sid] && o.Valid()
      modifies this
      ensures Abs() == Update(cfg, old(Abs()), sid, srl, now, o)
      decreases |entries[sid]|, 1
    {
      var e := entries[sid][srl];
      var stage := e.stage;
      while stage == 0 || (stage != cfg.Done() && e.acked[stage] == {} && e.dispatched[stage] == {} && e.outstanding[stage] == {})
        invariant stage <= cfg.Done()
        invariant NextStage(cfg, e, stage) == NextStage(cfg, e, e.stage)
        decreases cfg.Done() - stage
      {
        stage := stage + 1;
      }
      Replace(sid, srl, e.(stage := stage));
      ReadyPut(cfg, old(Abs()), sid, srl, e.(stage := stage));
      if stage == cfg.Done() {
        if e.outstandingKids != {} || e.extracted != {} {
          return false;
        }
        RemoveEntry(sid, srl, now, o);
        return true;
      }
      if e.dispatched[stage] != {} {
        return false;
      }
      var todo := e.outstanding[stage];
      var e1 := e.(stage := stage, dispatched := e.dispatched[stage := todo], outstanding := e.outstanding[stage := {}]);
      Replace(sid, srl, e1);
      PutTwice(old(Abs()), sid, srl, e.(stage := stage), e1);
      SendAll(sid, srl, o.order(todo), now, o);
      return false;
    }

    /** An entry's fields change. */
    method Replace(sid: Sid, srl: Srl, e: Entry)
      requires sid in entries
      modifies this
      ensures Abs() == Put(old(Abs()), sid, srl, e)
    {
      entries := entries[sid := entries[sid][srl := e]];
    }

    /** The loop that sends the services of a stage. */
    method SendAll(sid: Sid, srl: Srl, names: seq<Name>, now: real, o: Oracle)
      requires Has(Abs(), sid, srl) && sid in completed
      requires forall n | n in names :: n in cfg.services
      modifies this
      ensures Abs() == DispatchAll(cfg, old(Abs()), sid, srl, names, now, o)
    {
      var i := 0;
      while i < |names|
        invariant i <= |names|
        invariant Has(Abs(), sid, srl) && sid in completed
        invariant DispatchAll(cfg, Abs(), sid, srl, names[i..], now, o) == DispatchAll(cfg, old(Abs()), sid, srl, names, now, o)
      {
        var ok := Dispatch(sid, srl, names[i], now, o);
        assert names[i..][1..] == names[i + 1..];
        i := i + 1;
      }
    }

    /** RemoveEntry: move a finished entry to completed, and tell its parent or close the books. */
    method RemoveEntry(sid: Sid, srl: Srl, now: real, o: Oracle)
      requires Ready(cfg, Abs(), sid) && srl in entries[sid] && o.Valid()
      requires At(Abs(), sid, srl).outstandingKids == {}
      modifies this
      ensures Abs() == Remove(cfg, old(Abs()), sid, srl, now, o)
      decreases |entries[sid]|, 0
    {
      ghost var s := Abs();
      var e := entries[sid][srl];
      ReadyLeaves(cfg, s, sid, srl);
      MoveToCompleted(sid, srl);
      hide Remove, Update, Finish, Linked, Shaped;
      if e.parent.Some? {
        RemoveChild(cfg, s, sid, srl, now, o);
        WithoutLinked(old(entries)[sid], srl);
        var p := e.parent.value;
        TellParent(sid, p, srl);
        assert Abs() == Told(s, sid, srl);
        hide Told, Leaving, Put;
        var done := UpdateEntry(sid, p, now, o);
      } else {
        RemoveRoot(cfg, s, sid, srl, now, o);
        PushComplete(sid);
        if entries[sid] == map[] {
          CloseSubmission(sid, srl, e);
        }
      }
    }

    /** The parent no longer waits for the child. */
    method TellParent(sid: Sid, p: Srl, kid: Srl)
      requires Has(Abs(), sid, p)
      modifies this
      ensures Abs() == Put(old(Abs()), sid, p, KidDone(At(old(Abs()), sid, p), kid))
    {
      var pe := entries[sid][p];
      entries := entries[sid := entries[sid][p := KidDone(pe, kid)]];
    }

    method PushComplete(sid: Sid)
      requires sid in score
      modifies this
      ensures Abs() == old(Abs()).(storage := old(storage) + [Complete(sid, old(score)[sid].GetOr(0))])
    {
      storage := storage + [Complete(sid, score[sid].GetOr(0))];
    }

    /** The file is done: its score counts, and it moves to completed. */
    method MoveToCompleted(sid: Sid, srl: Srl)
      requires Has(Abs(), sid, srl) && sid in completed && sid in score
      modifies this
      ensures Abs() == Finish(old(Abs()), sid, srl)
    {
      var e := entries[sid][srl];
      if score[sid].None? || e.score > score[sid].value {
        score := score[sid := Some(e.score)];
      }
      entries := entries[sid := entries[sid] - {srl}];
      completed := completed[sid := completed[sid][srl := e.c12n]];
    }

    /** The last file is done: push the final record and forget the submission. */
    method CloseSubmission(sid: Sid, srl: Srl, e: Entry)
      requires sid in completed && sid in results && sid in errors && sid in score && sid in log && sid in asked
      modifies this
      ensures Abs() == Close(old(Abs()), sid, srl, e)
    {
      storage := storage + [Finalize(sid, score[sid].GetOr(0), results[sid], errors[sid], completed[sid], srl, e, log[sid], asked[sid])];
      entries := entries - {sid};
      Forget(sid);
    }

    method Forget(sid: Sid)
      modifies this
      ensures Abs() == old(Abs()).(completed := old(completed) - {sid}, results := old(results) - {sid},
                                   errors := old(errors) - {sid}, score := old(score) - {sid},
                                   log := old(log) - {sid}, asked := old(asked) - {sid})
    {
      ForgetKeys(sid);
      ForgetRecords(sid);
      completed, score := completed - {sid}, score - {sid};
    }

    method ForgetKeys(sid: Sid)
      modifies this
      ensures Abs() == old(Abs()).(results := old(results) - {sid}, errors := old(errors) - {sid})
    {
      results, errors := results - {sid}, errors - {sid};
    }

    method ForgetRecords(sid: Sid)
      modifies this
      ensures Abs() == old(Abs()).(log := old(log) - {sid}, asked := old(asked) - {sid})
    {
      log, asked := log - {sid}, asked - {sid};
    }

    /** acknowledged: a service has taken a request up. */
    method Acknowledged(sid: Sid, srl: Srl, name: Name, seconds: real, now: real)
      requires Valid() && now == clock
      modifies this
      ensures Valid()
      ensures sid in old(entries) ==> Ready(cfg, old(Abs()), sid)
      ensures Abs() == DispatchModel.Acknowledged(cfg, old(Abs()), sid, srl, name, seconds, now)
    {
      hide Inv;
      AcknowledgedKeeps(cfg, Abs(), sid, srl, name, seconds, now);
      if sid !in entries || srl !in entries[sid] || name !in cfg.services {
        return;
      }
      var e := entries[sid][srl];
      var stage := cfg.services[name].stage;
      if name !in e.dispatched[stage] {
        return;
      }
      var e1 := e.(dispatched := e.dispatched[stage := e.dispatched[stage] - {name}],
                   acked := e.acked[stage := e.acked[stage] + {name}]);
      entries := entries[sid := entries[sid][srl := e1]];
      svcT := Arm(svcT, seconds, Timeout(sid, srl, name, now + seconds));
    }

    /** redispatch: send again unless the service is completed or, after an ack timeout, acknowledged. */
    method Redispatch(ack: bool, sid: Sid, srl: Srl, name: Name, now: real, o: Oracle) returns (again: bool)
      requires cfg.Valid() && name in cfg.services
      requires sid in entries ==> Ready(cfg, Abs(), sid)
      modifies this
      ensures again == Resend(cfg, old(Abs()), ack, sid, srl, name)
      ensures Abs() == if again then DispatchModel.Dispatch(cfg, old(Abs()), sid, srl, name, now, o) else old(Abs())
    {
      if sid !in entries || srl !in entries[sid] {
        return false;
      }
      var e := entries[sid][srl];
      var stage := cfg.services[name].stage;
      var d := if ack then e.acked[stage] else e.completed[stage];
      if name in e.completed[stage] || name in d {
        return false;
      }
      var ok := Dispatch(sid, srl, name, now, o);
      return true;
    }

    /** The part of serviced that notes an announced child. */
    method NoteChild(sid: Sid, srl: Srl, kid: Srl, now: real)
      requires Has(Abs(), sid, srl) && sid in completed
      modifies this
      ensures Abs() == Noted(cfg, old(Abs()), sid, srl, kid, now) && Has(Abs(), sid, srl) && sid in completed
    {
      var e := entries[sid][srl];
      if kid !in e.outstandingKids && kid !in e.completedKids && kid !in completed[sid] && kid !in entries[sid] {
        entries := entries[sid := entries[sid][srl := e.(extracted := e.extracted + {kid})]];
        childT := Arm(childT, cfg.childSeconds, Timeout(sid, srl, kid, now + cfg.childSeconds));
      }
    }

    /** The loop of serviced over all announced children. */
    method NoteChildren(sid: Sid, srl: Srl, kids: seq<Srl>, now: real)
      requires Has(Abs(), sid, srl) && sid in completed
      modifies this
      ensures Abs() == Announce(cfg, old(Abs()), sid, srl, kids, now)
    {
      hide Noted;
      var i := 0;
      while i < |kids|
        invariant i <= |kids|
        invariant Has(Abs(), sid, srl) && sid in completed
        invariant Announce(cfg, Abs(), sid, srl, kids[i..], now) == Announce(cfg, old(Abs()), sid, srl, kids, now)
      {
        assert kids[i..][0] == kids[i] && kids[i..][1..] == kids[i + 1..];
        NoteChild(sid, srl, kids[i], now);
        i := i + 1;
      }
    }

    /** The part of serviced that looks the entry up: does it wait for this service? */
    method IsAwaited(m: Response) returns (yes: bool)
      requires cfg.Valid() && (m.sid in entries ==> Ready(cfg, Abs(), m.sid))
      ensures yes <==> Awaited(cfg, Abs(), m.sid, m.srl, m.name)
    {
      if m.sid !in entries || m.srl !in entries[m.sid] || m.name !in cfg.services {
        return false;
      }
      var e := entries[m.sid][m.srl];
      var stage := cfg.services[m.name].stage;
      return m.name in e.acked[stage] || m.name in e.dispatched[stage];
    }

    /** The part of serviced that lowers the service's queue size. */
    method Dequeue(name: Name)
      modifies this
      ensures Abs() == Dequeued(old(Abs()), name)
    {
      if Get(queueSize, name, 0) > 0 {
        queueSize := queueSize[name := queueSize[name] - 1];
      }
    }

    /** serviced: a service has answered. */
    method Serviced(m: Response, now: real, o: Oracle)
      requires Valid() && o.Valid() && now == clock
      modifies this
      ensures Valid()
      ensures Abs() == DispatchEvents.Serviced(cfg, old(Abs()), m, now, o)
    {
      hide Inv, Ready, Responded, Dequeued, Awaited, DispatchEvents.Serviced;
      ServicedKeeps(cfg, Abs(), m, now, o);
      ServicedIs(cfg, Abs(), m, now, o);
      var awaited := IsAwaited(m);
      if awaited {
        Dequeue(m.name);
        Respond(m, now, o);
      }
    }

    /** The part of serviced that acts on an awaited answer. */
    method Respond(m: Response, now: real, o: Oracle)
      requires Valid() && o.Valid() && now == clock && (m.sid in entries ==> Ready(cfg, Abs(), m.sid))
      requires Awaited(cfg, Abs(), m.sid, m.srl, m.name)
      modifies this
      ensures Abs() == Responded(cfg, old(Abs()), m, now, o)
    {
      hide Inv, Credit, Update, Linked, Shaped, Covered, StageOk;
      if m.queueOk {
        var again := false;
        if m.status.FailRecoverable? {
          again := Redispatch(false, m.sid, m.srl, m.name, now, o);
        }
        if !again {
          HeldFacts(cfg, Abs(), NoFocus, m.sid, m.srl);
          Answer(m, now, o);
        }
      }
    }

    /** The part of serviced that takes an awaited answer in and moves the entry on. */
    method Answer(m: Response, now: real, o: Oracle)
      requires Valid() && o.Valid() && now == clock && Awaited(cfg, Abs(), m.sid, m.srl, m.name)
      modifies this
      ensures Ready(cfg, old(Abs()), m.sid) && Ready(cfg, Credit(cfg, old(Abs()), m, now), m.sid)
      ensures Has(Credit(cfg, old(Abs()), m, now), m.sid, m.srl)
      ensures Abs() == Update(cfg, Credit(cfg, old(Abs()), m, now), m.sid, m.srl, now, o)
    {
      hide Inv, EntryOk, Covered, Credit, Update;
      HeldFacts(cfg, Abs(), NoFocus, m.sid, m.srl);
      CreditKeeps(cfg, Abs(), m, now);
      Record(m, now);
      InvReady(cfg, Abs(), Focus(m.sid, m.srl, {}), m.sid);
      var done := UpdateEntry(m.sid, m.srl, now, o);
    }

    /** The part of serviced that records an awaited answer. */
    method Record(m: Response, now: real)
      requires Ready(cfg, Abs(), m.sid) && Has(Abs(), m.sid, m.srl) && cfg.Valid() && m.name in cfg.services
      modifies this
      ensures Abs() == Credit(cfg, old(Abs()), m, now)
    {
      ghost var s := Abs();
      var e1 := Answered(cfg, entries[m.sid][m.srl], m, cfg.services[m.name].stage);
      entries := entries[m.sid := entries[m.sid][m.srl := e1]];
      RecordKey(m);
      assert Abs() == Recorded(cfg, s, m);
      hide Recorded, Announce;
      if m.status.Ok? {
        NoteChildren(m.sid, m.srl, m.extracted, now);
      }
    }

    /** The answer's cache key goes to the results or to the errors. */
    method RecordKey(m: Response)
      requires m.sid in log && m.sid in results && m.sid in errors
      modifies this
      ensures Abs() == old(Abs()).(log := old(log)[m.sid := old(log)[m.sid] + [FinishedBy(m)]],
                                   results := AddKey(old(results), m.sid, m.key, m.status.Ok?),
                                   errors := AddKey(old(errors), m.sid, m.key, !m.status.Ok?))
    {
      log := log[m.sid := log[m.sid] + [FinishedBy(m)]];
      results := AddKey(results, m.sid, m.key, m.status.Ok?);
      errors := AddKey(errors, m.sid, m.key, !m.status.Ok?);
    }

    /** submitted: a file arrives. */
    method Submitted(m: Submission, now: real, o: Oracle)
      requires Valid() && o.Valid() && now == clock
      modifies this
      ensures Valid()
      ensures Abs() == DispatchSubmit.Submitted(cfg, old(Abs()), m, now, o)
    {
      ghost var s := Abs();
      SubmittedKeeps(cfg, s, m, now, o);
      ArrivedKeeps(cfg, s, m);
      InvSlot(cfg, s, NoFocus, m.sid);
      hide Inv, Arrived;
      var entered := Receive(m);
      if entered {
        InvReady(cfg, Abs(), Focus(m.sid, m.srl, {}), m.sid);
        var done := UpdateEntry(m.sid, m.srl, now, o);
      }
    }

    /** The part of submitted before the first update: whether and how the file enters. */
    method Receive(m: Submission) returns (entered: bool)
      requires m.sid in entries <==> m.sid in completed
      modifies this
      ensures (Abs(), entered) == Arrived(cfg, old(Abs()), m)
    {
      var depth := 0;
      if m.psrl.Some? {
        if !m.queueOk {
          return false;
        }
        Hear(m.sid, m.psrl.value, m.srl);
        depth := m.depth + 1;
      }
      if m.sid !in entries {
        if m.psrl.Some? {
          return false;
        }
        OpenSubmission(m.sid);
      }
      if m.srl in entries[m.sid] || m.srl in completed[m.sid] {
        return false;
      }
      if m.psrl.Some? && m.psrl.value !in entries[m.sid] {
        return false;
      }
      Create(m, depth);
      return true;
    }

    /** The first file of a submission: create its dictionaries. */
    method OpenSubmission(sid: Sid)
      modifies this
      ensures Abs() == Open(old(Abs()), sid)
    {
      OpenFiles(sid);
      OpenRecords(sid);
      errors, results, score := errors[sid := []], results[sid := []], score[sid := None];
    }

    method OpenFiles(sid: Sid)
      modifies this
      ensures Abs() == old(Abs()).(entries := old(entries)[sid := map[]], completed := old(completed)[sid := map[]])
    {
      entries, completed := entries[sid := map[]], completed[sid := map[]];
    }

    method OpenRecords(sid: Sid)
      modifies this
      ensures Abs() == old(Abs()).(log := old(log)[sid := []], asked := old(asked)[sid := map[]], started := old(started) + multiset{sid})
    {
      log, asked, started := log[sid := []], asked[sid := map[]], started + multiset{sid};
    }

    /** Take a child off its parent's list of announced children: it has arrived. */
    method Hear(sid: Sid, psrl: Srl, kid: Srl)
      modifies this
      ensures Abs() == Heard(old(Abs()), sid, psrl, kid)
    {
      if sid in entries && psrl in entries[sid] {
        var p := entries[sid][psrl];
        entries := entries[sid := entries[sid][psrl := p.(extracted := p.extracted - {kid})]];
      }
    }

    /** CreateEntry: a new entry, linked to its parent. */
    method Create(m: Submission, depth: int)
      requires m.sid in entries && (m.psrl.Some? ==> m.psrl.value in entries[m.sid])
      modifies this
      ensures Abs() == Enter(cfg, old(Abs()), m, depth)
    {
      var e := NewEntry(cfg, Abs(), m, depth);
      if m.psrl.Some? {
        var p := entries[m.sid][m.psrl.value];
        entries := entries[m.sid := entries[m.sid][m.psrl.value := Adopt(p, m.srl)]];
      }
      entries := entries[m.sid := entries[m.sid][m.srl := e]];
      Enlist(m);
    }

    method Enlist(m: Submission)
      modifies this
      ensures Abs() == old(Abs()).(next := old(next) + 1, asked := old(asked)[m.sid := Get(old(asked), m.sid, map[])[m.srl := m]])
    {
      next, asked := next + 1, asked[m.sid := Get(asked, m.sid, map[])[m.srl := m]];
    }

    /** The loop of process_timeouts over one list. */
    method ProcessList(ack: bool, k: real, now: real, o: Oracle)
      requires Valid() && o.Valid() && now == clock && k in TableOf(Abs(), ack)
      modifies this
      ensures Valid() && clock == now
      ensures var v := TableOf(old(Abs()), ack)[k];
              Abs() == Scan(cfg, old(Abs()), ack, k, Expired(v, now), now, o)
    {
      hide Inv, Scanning, Refire, Scan, Ready;
      ghost var s := Abs();
      var v := if ack then ackT[k] else svcT[k];
      ghost var goal := Scan(cfg, s, ack, k, Expired(v, now), now, o);
      ScanKeeps(cfg, s, ack, k, Expired(v, now), now, o);
      ScanStart(cfg, s, ack, k, now, o);
      SetList(ack, k, []);
      var start := 0;
      assert v[start..] == v;
      while start < |v| && v[start].time < now
        invariant start <= |v| && Scanning(cfg, Abs(), ack, k, v[start..], now, o, goal)
      {
        assert v[start..][1..] == v[start + 1..] && v[start..][0] == v[start];
        ScanTurn(cfg, Abs(), ack, k, v[start..], now, o, goal);
        var again := RedispatchOne(ack, k, v[start], now, o);
        start := start + 1;
      }
      ScanEnd(cfg, Abs(), ack, k, v[start..], now, o, goal);
      var rest := if ack then ackT[k] else svcT[k];
      SetList(ack, k, v[start..] + rest);
    }

    method SetList(ack: bool, k: real, v: seq<Timeout<Name>>)
      modifies this
      ensures Abs() == WithTable(old(Abs()), ack, TableOf(old(Abs()), ack)[k := v])
    {
      if ack {
        ackT := ackT[k := v];
      } else {
        svcT := svcT[k := v];
      }
    }

    /** The body of that loop: send again if needed, and arm the timeout anew. */
    method RedispatchOne(ack: bool, k: real, t: Timeout<Name>, now: real, o: Oracle) returns (again: bool)
      requires cfg.Valid() && t.data in cfg.services && k in TableOf(Abs(), ack)
      requires t.sid in entries ==> Ready(cfg, Abs(), t.sid)
      modifies this
      ensures Abs() == Refire(cfg, old(Abs()), ack, k, t, now, o)
    {
      again := Redispatch(ack, t.sid, t.srl, t.data, now, o);
      if again {
        Rearm(ack, k, Timeout(t.sid, t.srl, t.data, now + k));
      }
    }

    method Rearm(ack: bool, k: real, x: Timeout<Name>)
      modifies this
      ensures Abs() == WithTable(old(Abs()), ack, Arm(TableOf(old(Abs()), ack), k, x))
    {
      if ack {
        ackT := Arm(ackT, k, x);
      } else {
        svcT := Arm(svcT, k, x);
      }
    }

    /** process_timeouts: all lists of a table, in the order of `keys`. */
    method ProcessTimeouts(ack: bool, keys: seq<real>, now: real, o: Oracle)
      requires Valid() && o.Valid() && now == clock
      requires Keyed(TableOf(Abs(), ack), keys)
      modifies this
      ensures Valid() && clock == now
      ensures Abs() == Sweep(cfg, old(Abs()), ack, keys, now, o)
    {
      hide Inv, Scan, Fresh;
      ghost var goal := Sweep(cfg, Abs(), ack, keys, now, o);
      var i := 0;
      assert keys[i..] == keys;
      while i < |keys|
        invariant i <= |keys| && Valid() && clock == now
        invariant Keyed(TableOf(Abs(), ack), keys[i..])
        invariant Sweep(cfg, Abs(), ack, keys[i..], now, o) == goal
      {
        assert keys[i..][1..] == keys[i + 1..] && keys[i..][0] == keys[i];
        assert keys[i..][0] in TableOf(Abs(), ack);
        ghost var m := Expired(TableOf(Abs(), ack)[keys[i]], now);
        ScanFresh(cfg, Abs(), ack, keys[i], m, now, o);
        DroppedKeyed(TableOf(Abs(), ack), keys[i], m, keys[i..]);
        FreshKeys(Dropped(TableOf(Abs(), ack), keys[i], m), TableOf(Scan(cfg, Abs(), ack, keys[i], m, now, o), ack), keys[i + 1..], now);
        ProcessList(ack, keys[i], now, o);
        i := i + 1;
      }
    }

    /** The body of the child timeout loop: the child is forgotten, and its parent moved on. */
    method ForgetChild(t: Timeout<Srl>, now: real, o: Oracle)
      requires (t.sid in entries ==> Ready(cfg, Abs(), t.sid)) && o.Valid()
      modifies this
      ensures Abs() == RefireChild(cfg, old(Abs()), t, now, o)
    {
      if t.sid in entries && t.srl in entries[t.sid] {
        var e := entries[t.sid][t.srl];
        ReadyForget(cfg, Abs(), t);
        entries := entries[t.sid := entries[t.sid][t.srl := e.(extracted := e.extracted - {t.data})]];
        var done := UpdateEntry(t.sid, t.srl, now, o);
      }
    }

    /** check_timeouts' loop over one list of child timeouts. */
    method ProcessChildList(k: real, now: real, o: Oracle)
      requires Valid() && o.Valid() && now == clock && k in childT
      modifies this
      ensures Valid() && clock == now
      ensures Abs() == ScanChildren(cfg, old(Abs()), k, Expired(old(childT)[k], now), now, o)
    {
      hide Inv, ScanningChild, RefireChild, ScanChildren, Ready, Fresh;
      ghost var s := Abs();
      var v := childT[k];
      ghost var goal := ScanChildren(cfg, s, k, Expired(v, now), now, o);
      ScanChildrenKeeps(cfg, s, k, Expired(v, now), now, o);
      ScanChildStart(cfg, s, k, now, o);
      SetChildList(k, []);
      var start := 0;
      assert v[start..] == v;
      while start < |v| && v[start].time < now
        invariant start <= |v| && ScanningChild(cfg, Abs(), k, v[start..], now, o, goal)
      {
        assert v[start..][1..] == v[start + 1..] && v[start..][0] == v[start];
        ScanChildTurn(cfg, Abs(), k, v[start..], now, o, goal);
        ForgetChild(v[start], now, o);
        start := start + 1;
      }
      ScanChildEnd(cfg, Abs(), k, v[start..], now, o, goal);
      SetChildList(k, v[start..] + childT[k]);
    }

    method SetChildList(k: real, v: seq<Timeout<Srl>>)
      modifies this
      ensures Abs() == old(Abs()).(childT := old(childT)[k := v])
    {
      childT := childT[k := v];
    }

    method ProcessChildren(keys: seq<real>, now: real, o: Oracle)
      requires Valid() && o.Valid() && now == clock
      requires Keyed(childT, keys)
      modifies this
      ensures Valid() && clock == now
      ensures Abs() == SweepChildren(cfg, old(Abs()), keys, now, o)
    {
      hide Inv, ScanChildren, Fresh;
      ghost var goal := SweepChildren(cfg, Abs(), keys, now, o);
      var i := 0;
      assert keys[i..] == keys;
      while i < |keys|
        invariant i <= |keys| && Valid() && clock == now
        invariant Keyed(childT, keys[i..])
        invariant SweepChildren(cfg, Abs(), keys[i..], now, o) == goal
      {
        assert keys[i..][1..] == keys[i + 1..] && keys[i..][0] == keys[i];
        assert keys[i..][0] in childT;
        ScanChildrenKeeps(cfg, Abs(), keys[i], Expired(childT[keys[i]], now), now, o);
        DroppedKeyed(childT, keys[i], Expired(childT[keys[i]], now), keys[i..]);
        ProcessChildList(keys[i], now, o);
        i := i + 1;
      }
    }

    /** check_timeouts: nothing if the last pass is too recent, else a pass over all tables. */
    method CheckTimeouts(now: real, o: Oracle)
      requires Valid() && o.Valid() && now == clock
      modifies this
      ensures Valid()
      ensures Abs() == DispatchSweep.CheckTimeouts(cfg, old(Abs()), now, o)
    {
      hide Inv, Sweep, SweepChildren, Clean, Fresh;
      CheckKeeps(cfg, Abs(), now, o);
      if now - lastCheck < cfg.updateInterval {
        return;
      }
      CheckStamped(cfg, Abs());
      lastCheck := now;
      AllTodo(ackT, o.keys(ackT.Keys), now);
      ProcessTimeouts(true, o.keys(ackT.Keys), now, o);
      AllTodo(svcT, o.keys(svcT.Keys), now);
      ProcessTimeouts(false, o.keys(svcT.Keys), now, o);
      AllTodo(childT, o.keys(childT.Keys), now);
      ProcessChildren(o.keys(childT.Keys), now, o);
    }

    /** process and the main loop: one event at a time, at its time. */
    method Handle(step: Step)
      requires Valid() && Legal(Abs(), step)
      modifies this
      ensures Valid()
      ensures Abs() == Next(cfg, old(Abs()), step)
    {
      hide Inv, DispatchSubmit.Submitted, DispatchEvents.Serviced, DispatchModel.Acknowledged, DispatchSweep.CheckTimeouts, Ready;
      NextKeeps(cfg, Abs(), step);
      TimePasses(cfg, Abs(), step.now);
      var now, o := step.now, step.o;
      clock := now;
      assert Abs() == WithClock(old(Abs()), now);
      match step.event {
        case Submit(m) => Submitted(m, now, o);
        case Ack(sid, srl, name, seconds) => Acknowledged(sid, srl, name, seconds, now);
        case Service(r) => Serviced(r, now, o);
        case Deliver(own, key, score, drop, extracted) =>
          Serviced(Message(own, key, score, drop, extracted), now, o);
          pending := pending - multiset{own};
        case Check => CheckTimeouts(now, o);
      }
    }
  }
}
