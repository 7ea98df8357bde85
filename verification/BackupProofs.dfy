/** Every interleaving of the backup loses no key and misses no report. */
module BackupProofs {
  import opened Prelude
  import opened Backup

  // ---- Kill messages -------------------------------------------------------------------------

  function KillsIn(q: seq<Message>): nat {
    if q == [] then 0 else (if q[0].Kill? then 1 else 0) + KillsIn(q[1..])
  }

  function DoneIn(ws: seq<Worker>): nat {
    if ws == [] then 0 else (if ws[0].done then 1 else 0) + DoneIn(ws[1..])
  }

  lemma {:induction false} KillsAppend(q: seq<Message>, m: Message)
    ensures KillsIn(q + [m]) == KillsIn(q) + if m.Kill? then 1 else 0
  {
    if q != [] {
      KillsAppend(q[1..], m);
      assert (q + [m])[1..] == q[1..] + [m];
    }
  }

  lemma {:induction false} NoKills(q: seq<Message>)
    ensures KillsIn(q) == 0 <==> forall m | m in q :: !m.Kill?
  {
    if q != [] { NoKills(q[1..]); }
  }

  lemma {:induction false} DoneUpdate(ws: seq<Worker>, w: nat, v: Worker)
    requires w < |ws|
    ensures DoneIn(ws[w := v]) == DoneIn(ws) + (if v.done then 1 else 0) - if ws[w].done then 1 else 0
  {
    if w > 0 {
      DoneUpdate(ws[1..], w - 1, v);
      assert ws[w := v][1..] == ws[1..][w - 1 := v];
    }
  }

  lemma {:induction false} DoneBound(ws: seq<Worker>)
    ensures DoneIn(ws) <= |ws|
    ensures DoneIn(ws) == |ws| <==> forall w | 0 <= w < |ws| :: ws[w].done
    ensures DoneIn(ws) == 0 <==> forall w | 0 <= w < |ws| :: !ws[w].done
  {
    if ws != [] { DoneBound(ws[1..]); }
  }

  // ---- The streamed keys come before the kill messages ---------------------------------------

  predicate KeysFirst(q: seq<Message>) {
    forall i, j :: 0 <= i < j < |q| && q[i].Kill? ==> q[j].Kill?
  }

  predicate NoKeys(q: seq<Message>) { forall i | 0 <= i < |q| :: q[i].Kill? }

  predicate Out(g: Stage) { g.Leaving? || g.Gone? }

  ghost predicate QueueInv(s: State) {
    && KeysFirst(s.backup) && KillsIn(s.backup) + DoneIn(s.workers) == s.kills <= |s.workers|
    && (DoneIn(s.workers) > 0 ==> NoKeys(s.backup))
    && (forall w | 0 <= w < |s.workers| :: Out(s.workers[w].stage) ==> s.workers[w].done)
  }

  /** Once every worker is out, nothing is left to follow. */
  ghost predicate FollowInv(s: State) {
    |s.workers| > 0 && (forall w | 0 <= w < |s.workers| :: Out(s.workers[w].stage)) ==> s.follow == []
  }

  lemma QueueStep(s: State, e: Event)
    requires QueueInv(s) && Step(s, e).Some?
    ensures QueueInv(Step(s, e).value)
  {
    hide KillsIn, DoneIn;
    var r := Step(s, e).value;
    match e
    case Streams(item) =>
      KillsAppend(s.backup, Key(item));
      NoKills(s.backup);
    case Kills => KillsAppend(s.backup, Kill);
    case Pops(w) => PopKeeps(s, w);
    case Counts =>
    case _ => DoneUpdate(s.workers, e.w, r.workers[e.w]);
  }

  lemma PopKeeps(s: State, w: nat)
    requires QueueInv(s) && w < |s.workers| && s.workers[w].stage.Ready?
    ensures QueueInv(Popped(s, w))
  {
    hide DoneIn;
    var r := Popped(s, w);
    DoneUpdate(s.workers, w, r.workers[w]);
    assert r.workers == s.workers[w := r.workers[w]];
    if !s.workers[w].done && s.backup != [] {
      assert KillsIn(s.backup) == (if s.backup[0].Kill? then 1 else 0) + KillsIn(s.backup[1..]);
      forall i, j | 0 <= i < j < |r.backup| && r.backup[i].Kill? ensures r.backup[j].Kill? {
        assert s.backup[i + 1].Kill? ==> s.backup[j + 1].Kill?;
      }
      forall i | 0 <= i < |r.backup| && DoneIn(r.workers) > 0 ensures r.backup[i].Kill? {
        assert r.backup[i] == s.backup[i + 1];
      }
    }
  }

  lemma FollowStep(s: State, e: Event)
    requires FollowInv(s) && Step(s, e).Some?
    ensures FollowInv(Step(s, e).value)
  {
    var r := Step(s, e).value;
    if e.Counts? || e.Streams? || e.Kills? {
      assert r.workers == s.workers;
    } else {
      var w := e.w;
      assert forall v | 0 <= v < |s.workers| && v != w :: r.workers[v] == s.workers[v];
      if s.workers[w].stage != r.workers[w].stage && !Out(r.workers[w].stage) {
        assert !(forall v | 0 <= v < |r.workers| :: Out(r.workers[v].stage));
      }
    }
  }

  // ---- Every item is somewhere until it is reported ------------------------------------------

  predicate Holding(g: Stage, item: Item) {
    match g
    case Reading(i) => i == item
    case Checking(i, _, _) => i == item
    case Adding(i, _, _) => i == item
    case Pushing(i, _, _) => i == item
    case Reporting(i, _) => i == item
    case _ => false
  }

  predicate Held(s: State, item: Item) { exists w | 0 <= w < |s.workers| :: Holding(s.workers[w].stage, item) }

  function Log(s: State): seq<Report> { s.read + s.reports }

  predicate Processed(s: State, item: Item) { exists m | m in Log(s) :: m.Report? && m.item == item }

  predicate Safe(s: State, item: Item) {
    Key(item) in s.backup || item in s.follow || Held(s, item) || Processed(s, item)
  }

  lemma LogGrows(s: State, e: Event)
    requires Step(s, e).Some?
    ensures Log(s) <= Log(Step(s, e).value)
  {
    var r := Step(s, e).value;
    if e.Counts? {
      assert s.reports == [s.reports[0]] + s.reports[1..];
      assert Log(r) == s.read + ([s.reports[0]] + s.reports[1..]);
    } else {
      assert s.reports <= r.reports && s.read == r.read;
    }
  }

  lemma ProcessedStays(s: State, r: State, item: Item)
    requires Log(s) <= Log(r) && Processed(s, item)
    ensures Processed(r, item)
  {
    var m :| m in Log(s) && m.Report? && m.item == item;
    assert m in Log(r);
  }

  /** No step loses an item. */
  lemma SafeStays(s: State, e: Event, item: Item)
    requires Step(s, e).Some? && Safe(s, item)
    ensures Safe(Step(s, e).value, item)
  {
    hide Log;
    var r := Step(s, e).value;
    LogGrows(s, e);
    if Processed(s, item) {
      ProcessedStays(s, r, item);
    } else if Held(s, item) {
      var w :| 0 <= w < |s.workers| && Holding(s.workers[w].stage, item);
      HeldStays(s, e, w, item);
    } else {
      QueuedStays(s, e, item);
    }
  }

  lemma HeldStays(s: State, e: Event, w: nat, item: Item)
    requires Step(s, e).Some? && w < |s.workers| && Holding(s.workers[w].stage, item)
    ensures var r := Step(s, e).value; Held(r, item) || Processed(r, item)
  {
    var r := Step(s, e).value;
    if e.Reports? && e.w == w {
      assert Report(w, item, s.workers[w].stage.outcome) in r.reports;
      assert Report(w, item, s.workers[w].stage.outcome) in Log(r);
    } else {
      assert |r.workers| == |s.workers| && Holding(r.workers[w].stage, item);
    }
  }

  lemma QueuedStays(s: State, e: Event, item: Item)
    requires Step(s, e).Some? && (Key(item) in s.backup || item in s.follow)
    ensures var r := Step(s, e).value; Key(item) in r.backup || item in r.follow || Held(r, item)
  {
    var r := Step(s, e).value;
    if e.Pops? {
      var w := e.w;
      if s.backup != [] && s.backup[0] == Key(item) && r.backup != s.backup { assert Holding(r.workers[w].stage, item); }
      if s.follow != [] && s.follow[0] == item && r.follow != s.follow { assert Holding(r.workers[w].stage, item); }
      assert s.backup != [] ==> s.backup == [s.backup[0]] + s.backup[1..];
      assert s.follow != [] ==> s.follow == [s.follow[0]] + s.follow[1..];
    }
  }

  // ---- Every target is followed --------------------------------------------------------------

  function ItemOf(t: Target): Item { Item(t.0, t.1, true) }

  /** The worker added the target to the hash and pushes it next. */
  predicate Announcing(s: State, w: nat, t: Target) {
    && w < |s.workers| && s.workers[w].stage.Pushing?
    && var g := s.workers[w].stage; var f := TargetsOf(s, g.item, g.record);
    && g.at < |f.targets| && f.targets[g.at] == t
  }

  ghost predicate Due(s: State, t: Target) {
    Safe(s, ItemOf(t)) || exists w :: Announcing(s, w, t)
  }

  ghost predicate InHash(s: State, ts: seq<Target>) {
    forall i | 0 <= i < |ts| :: ts[i] in s.hash
  }

  ghost predicate WorkerInv(s: State, g: Stage) {
    match g
    case Checking(item, record, at) =>
      var f := TargetsOf(s, item, record); at <= |f.targets| && InHash(s, f.targets[..at])
    case Adding(item, record, at) =>
      var f := TargetsOf(s, item, record); at < |f.targets| && InHash(s, f.targets[..at])
    case Pushing(item, record, at) =>
      var f := TargetsOf(s, item, record); at < |f.targets| && InHash(s, f.targets[..at + 1])
    case Reporting(item, Saved(record)) =>
      var f := TargetsOf(s, item, record); !f.raises && InHash(s, f.targets)
    case _ => true
  }

  ghost predicate ReportInv(s: State, m: Report) {
    m.Report? && m.outcome.Saved? ==>
      var f := TargetsOf(s, m.item, m.outcome.record); !f.raises && InHash(s, f.targets)
  }

  ghost predicate ItemInv(s: State) {
    && (forall item | item in s.streamed :: Safe(s, item))
    && (forall t | t in s.hash :: Due(s, t))
    && (forall w | 0 <= w < |s.workers| :: WorkerInv(s, s.workers[w].stage))
    && (forall m | m in Log(s) :: ReportInv(s, m))
  }

  lemma HashGrows(s: State, e: Event)
    requires Step(s, e).Some?
    ensures var r := Step(s, e).value; s.hash <= r.hash && s.known == r.known && |r.workers| == |s.workers|
  {}

  lemma DueStays(s: State, e: Event, t: Target)
    requires Step(s, e).Some? && Due(s, t)
    ensures Due(Step(s, e).value, t)
  {
    hide Safe, FollowsOf;
    var r := Step(s, e).value;
    if Safe(s, ItemOf(t)) {
      SafeStays(s, e, ItemOf(t));
    } else {
      var w :| Announcing(s, w, t);
      HashGrows(s, e);
      if e == Follow(w) {
        Pushed(s, w, t);
      } else {
        assert Announcing(r, w, t);
      }
    }
  }

  lemma Pushed(s: State, w: nat, t: Target)
    requires Announcing(s, w, t)
    ensures Safe(Followed(s, w), ItemOf(t))
  {
    hide FollowsOf, TargetsOf, Held, Processed;
    assert Followed(s, w).follow == s.follow + [ItemOf(t)];
  }

  lemma NewTarget(s: State, e: Event, t: Target)
    requires Step(s, e).Some? && t in Step(s, e).value.hash && t !in s.hash
    ensures Due(Step(s, e).value, t)
  {
    hide FollowsOf, Safe;
    assert e.Follow?;
    assert Announcing(Step(s, e).value, e.w, t);
  }

  lemma NewStreamed(s: State, e: Event, item: Item)
    requires Step(s, e).Some? && item in Step(s, e).value.streamed && item !in s.streamed
    ensures Safe(Step(s, e).value, item)
  {
    assert e == Streams(item);
  }

  lemma WorkerMono(s: State, r: State, g: Stage)
    requires WorkerInv(s, g) && s.hash <= r.hash && s.known == r.known
    ensures WorkerInv(r, g)
  {
    hide FollowsOf;
  }

  lemma OwnWorker(s: State, e: Event)
    requires Step(s, e).Some? && !e.Streams? && !e.Kills? && !e.Counts? && WorkerInv(s, s.workers[e.w].stage)
    ensures WorkerInv(Step(s, e).value, Step(s, e).value.workers[e.w].stage)
  {
    hide FollowsOf;
    var r := Step(s, e).value;
    var g := s.workers[e.w].stage;
    if g.Checking? || g.Adding? || g.Pushing? {
      var f := TargetsOf(s, g.item, g.record);
      assert TargetsOf(r, g.item, g.record) == f;
      assert g.at < |f.targets| ==> f.targets[..g.at + 1] == f.targets[..g.at] + [f.targets[g.at]];
      assert g.at == |f.targets| ==> f.targets[..g.at] == f.targets;
    }
  }

  lemma NewReport(s: State, e: Event, m: Report)
    requires Step(s, e).Some? && m in Log(Step(s, e).value) && m !in Log(s) && m.Report?
    ensures e.Reports? && s.workers[e.w].stage == Reporting(m.item, m.outcome)
  {
    if e.Counts? { CountsKeepLog(s); }
  }

  lemma CountsKeepLog(s: State)
    requires s.reports != []
    ensures Log(Counted(s)) == Log(s)
  {
    assert s.reports == [s.reports[0]] + s.reports[1..];
  }

  lemma ItemStep(s: State, e: Event)
    requires ItemInv(s) && Step(s, e).Some?
    ensures ItemInv(Step(s, e).value)
  {
    hide Step, Safe, Due, WorkerInv, FollowsOf, Log;
    var r := Step(s, e).value;
    HashGrows(s, e);
    forall item | item in r.streamed ensures Safe(r, item) {
      if item in s.streamed { SafeStays(s, e, item); } else { NewStreamed(s, e, item); }
    }
    forall t | t in r.hash ensures Due(r, t) {
      if t in s.hash { DueStays(s, e, t); } else { NewTarget(s, e, t); }
    }
    forall w | 0 <= w < |r.workers| ensures WorkerInv(r, r.workers[w].stage) {
      WorkerStep(s, e, w);
    }
    forall m | m in Log(r) ensures ReportInv(r, m) {
      ReportStep(s, e, m);
    }
  }

  lemma WorkerStep(s: State, e: Event, w: nat)
    requires ItemInv(s) && Step(s, e).Some? && w < |s.workers|
    ensures |Step(s, e).value.workers| == |s.workers| && WorkerInv(Step(s, e).value, Step(s, e).value.workers[w].stage)
  {
    hide Safe, Due, WorkerInv, FollowsOf, Log, Popped, Followed;
    var r := Step(s, e).value;
    HashGrows(s, e);
    assert WorkerInv(s, s.workers[w].stage);
    if !e.Streams? && !e.Kills? && !e.Counts? && e.w == w {
      OwnWorker(s, e);
    } else {
      OtherWorkers(s, e, w);
      WorkerMono(s, r, s.workers[w].stage);
    }
  }

  lemma OtherWorkers(s: State, e: Event, w: nat)
    requires Step(s, e).Some? && w < |s.workers| && (e.Streams? || e.Kills? || e.Counts? || e.w != w)
    ensures w < |Step(s, e).value.workers| && Step(s, e).value.workers[w] == s.workers[w]
  {}

  lemma ReportStep(s: State, e: Event, m: Report)
    requires ItemInv(s) && Step(s, e).Some? && m in Log(Step(s, e).value)
    ensures ReportInv(Step(s, e).value, m)
  {
    hide Safe, Due, FollowsOf, Step, Log;
    var r := Step(s, e).value;
    HashGrows(s, e);
    if m in Log(s) {
      assert ReportInv(s, m);
    } else if m.Report? {
      NewReport(s, e, m);
      NewReportWorker(s, e);
    }
  }

  lemma NewReportWorker(s: State, e: Event)
    requires ItemInv(s) && Step(s, e).Some? && e.Reports?
    ensures e.w < |s.workers| && WorkerInv(s, s.workers[e.w].stage)
  {
    hide Safe, Due, FollowsOf, WorkerInv, ReportInv;
  }
}
