/** The scan/duplicate protocol of al/core/middleman.py, as a machine. */
module Duplicates {
  // Threads run submitter, completed, timed_out and the failure path of submitter, interleaved at every
  // redis operation; ScanLock is the machine of module ScanLock.  Notices are told apart by the number
  // under which they were accepted or made.

  import opened Prelude
  import Lock = ScanLock

  type Thread = Lock.Thread

  /** What a thread does next. */
  datatype Stage =
    | Idle
    // submitter: enter the lock, look whether the key is being scanned, park or add, leave, submit
    | SubmitWant | SubmitTest | SubmitPark | SubmitAdd | SubmitCall
    // its failure path: drop the scan, and the duplicates with it if no retry is left
    | FailPop | GiveUp
    // completed: enter, take the scan, finalise it, drain the duplicates, finalise them, leave
    | DoneWant | DonePop | DoneOwn | DoneDrain | DoneFinal
    // timed_out: enter, drop the scan, drop the duplicates, leave
    | LateWant | LatePop | LateDrain
    // leaving the lock: before and after the table is updated; settled when the duplicates were drained
    | Exit(settled: bool, calls: bool) | Away(calls: bool)

  /** A thread, with the notices it holds and, in completed, the message's sid and score, and whether
      a notice can be made from its metadata: it has a type, and the submission is the ingester's own. */
  datatype Work = Work(stage: Stage, key: string, sid: string, score: int, ours: bool, held: seq<nat>)

  const RESTING := Work(Idle, "", "", 0, false, [])

  datatype Final = Final(notice: nat, key: string, sid: string, score: int)

  /** `origin` gives the key each notice was accepted under, `done` the completions delivered,
      `abandoned` the keys whose scan the failure path dropped and nobody added since. */
  datatype State = State(
    locks: Lock.Locks, work: map<Thread, Work>,
    scanning: map<string, nat>, dups: map<string, seq<nat>>,
    finals: seq<Final>, late: seq<nat>, back: seq<nat>,
    next: nat, origin: map<nat, string>, done: set<(string, string, int)>, abandoned: set<string>)

  const START := State(Lock.START, map[], map[], map[], [], [], [], 0, map[], {}, {})

  function WorkOf(s: State, t: Thread): Work { Get(s.work, t, RESTING) }

  function DupsOf(s: State, key: string): seq<nat> { Get(s.dups, key, []) }

  function Put(s: State, t: Thread, w: Work): State { s.(work := s.work[t := w]) }

  function Go(s: State, t: Thread, stage: Stage): State { Put(s, t, WorkOf(s, t).(stage := stage)) }

  // ---- The steps -----------------------------------------------------------------------------

  datatype Event =
    | Submits(t: Thread, key: string) | Completes(t: Thread, key: string, sid: string, score: int, ours: bool) | TimesOut(t: Thread, key: string)
    | Enters(t: Thread) | Works(t: Thread) | Unregisters(t: Thread) | Releases(t: Thread)
    | CallEnds(t: Thread, fails: bool) | Drops(t: Thread, retries: bool)

  predicate InBody(g: Stage) {
    g.SubmitTest? || g.SubmitPark? || g.SubmitAdd? || g.DonePop? || g.DoneOwn? || g.DoneDrain? || g.DoneFinal?
    || g.LatePop? || g.LateDrain?
  }

  /** One operation in the body of the lock. */
  function Worked(s: State, t: Thread): State
    requires InBody(WorkOf(s, t).stage)
  {
    var w := WorkOf(s, t);
    var k := w.key;
    match w.stage
    case SubmitTest => Go(s, t, if k in s.scanning then SubmitPark else SubmitAdd)
    case SubmitPark =>
      Go(s.(dups := s.dups[k := DupsOf(s, k) + [s.next]], next := s.next + 1, origin := s.origin[s.next := k]), t, Exit(false, false))
    case SubmitAdd =>
      Go(s.(scanning := s.scanning[k := s.next], next := s.next + 1, origin := s.origin[s.next := k],
            abandoned := s.abandoned - {k}), t, Exit(false, true))
    case DonePop =>
      if k !in s.scanning then Go(if w.ours then Rebuilt(s, t) else s, t, Exit(false, false))
      else Put(s.(scanning := s.scanning - {k}), t, w.(stage := DoneOwn, held := [s.scanning[k]]))
    case DoneOwn => Finalised(s, t, DoneDrain)
    case DoneDrain =>
      var q := DupsOf(s, k);
      if q == [] then Go(s, t, DoneFinal)
      else Put(s.(dups := s.dups[k := q[1..]]), t, w.(held := w.held + [q[0]]))
    case DoneFinal => if w.held == [] then Go(s, t, Exit(true, false)) else Finalised(s, t, DoneFinal)
    case LatePop =>
      if k !in s.scanning then Go(s, t, LateDrain)
      else Go(s.(scanning := s.scanning - {k}, late := s.late + [s.scanning[k]]), t, LateDrain)
    case LateDrain =>
      var q := DupsOf(s, k);
      if q == [] then Go(s, t, Exit(true, false)) else s.(dups := s.dups[k := q[1..]], late := s.late + [q[0]])
    case _ => s
  }

  /** A completion of no known scan finalises a notice made from the message's metadata. */
  function Rebuilt(s: State, t: Thread): State {
    var w := WorkOf(s, t);
    s.(finals := s.finals + [Final(s.next, w.key, w.sid, w.score)], next := s.next + 1, origin := s.origin[s.next := w.key])
  }

  /** finalize(psid, sid, score, notice) of the first notice held. */
  function Finalised(s: State, t: Thread, then': Stage): State {
    var w := WorkOf(s, t);
    if w.held == [] then Go(s, t, then')
    else Put(s.(finals := s.finals + [Final(w.held[0], w.key, w.sid, w.score)]), t, w.(stage := then', held := w.held[1..]))
  }

  /** The first operation in the body. */
  function Entered(g: Stage): Stage {
    match g
    case SubmitWant => SubmitTest
    case DoneWant => DonePop
    case _ => LatePop
  }

  predicate Wants(g: Stage) { g.SubmitWant? || g.DoneWant? || g.LateWant? }

  /** The failure path: outside the lock, the scan is taken away; the duplicates are deleted when
      no retry is left. */
  function Dropped(s: State, t: Thread, retries: bool): State {
    var k := WorkOf(s, t).key;
    if WorkOf(s, t).stage == GiveUp then
      Put(s.(dups := s.dups - {k}, back := s.back + DupsOf(s, k)), t, RESTING)
    else if k !in s.scanning then Put(s, t, RESTING)
    else
      var r := s.(scanning := s.scanning - {k}, back := s.back + [s.scanning[k]], abandoned := s.abandoned + {k});
      if retries then Put(r, t, RESTING) else Go(r, t, GiveUp)
  }

  /** None: the step is not possible. */
  function Step(s: State, e: Event): Option<State> {
    var w := WorkOf(s, e.t);
    match e
    case Submits(t, key) => Begun(s, t, Work(SubmitWant, key, "", 0, false, []))
    case Completes(t, key, sid, score, ours) =>
      Begun(s.(done := s.done + {(key, sid, score)}), t, Work(DoneWant, key, sid, score, ours, []))
    case TimesOut(t, key) => Begun(s, t, Work(LateWant, key, "", 0, false, []))
    case Enters(t) =>
      if Wants(w.stage) && Lock.CanAcquire(s.locks, t) then
        Some(Go(s.(locks := Lock.Acquire(s.locks, t)), t, Entered(w.stage)))
      else None
    case Works(t) => if InBody(w.stage) then Some(Worked(s, t)) else None
    case Unregisters(t) =>
      if w.stage.Exit? && Lock.CanUnregister(s.locks, t) then
        match Lock.Unregister(s.locks, t)
        case None => None
        case Some(l) => Some(Go(s.(locks := l), t, Away(w.stage.calls)))
      else None
    case Releases(t) =>
      if w.stage.Away? && Lock.CanRelease(s.locks, t) then
        match Lock.Release(s.locks, t)
        case None => None
        case Some(l) => Some(if w.stage.calls then Go(s.(locks := l), t, SubmitCall) else Put(s.(locks := l), t, RESTING))
      else None
    case CallEnds(t, fails) =>
      if w.stage.SubmitCall? then Some(if fails then Go(s, t, FailPop) else Put(s, t, RESTING)) else None
    case Drops(t, retries) =>
      if w.stage.FailPop? || w.stage.GiveUp? then Some(Dropped(s, t, retries)) else None
  }

  function Begun(s: State, t: Thread, w: Work): Option<State> {
    if WorkOf(s, t).stage.Idle? && Lock.CanRegister(s.locks, t) then
      Some(Put(s.(locks := Lock.Register(s.locks, t, w.key)), t, w))
    else None
  }

  function Run(events: seq<Event>): Option<State> {
    if events == [] then Some(START)
    else
      match Run(events[..|events| - 1])
      case None => None
      case Some(s) => Step(s, events[|events| - 1])
  }
}
