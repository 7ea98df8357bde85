/** The distributed backup of al/common/backupmanager.py, as a machine. */
module Backup {
  // A streamer, workers and a counting thread around three queues and a hash, interleaved at every
  // queue operation.

  import opened Prelude

  // ---- What a record refers to ---------------------------------------------------------------

  datatype Response = Response(supplementary: seq<(string, string)>, extracted: seq<(string, string)>)

  /** The fields FOLLOW_KEYS looks at; None where the field is absent. */
  datatype Record = Record(sid: Option<string>, results: Option<seq<string>>, errors: Option<seq<string>>,
                           files: Option<seq<(string, string)>>, response: Option<Response>)

  type Target = (string, string)

  function To(bucket: string, keys: seq<string>): seq<Target> {
    seq(|keys|, i requires 0 <= i < |keys| => (bucket, keys[i]))
  }

  predicate IsEmptyResult(key: string) { |key| >= 2 && key[|key| - 2..] == ".e" }

  function Select(keys: seq<string>, empties: bool): seq<string> {
    if keys == [] then []
    else (if IsEmptyResult(keys[0]) == empties then [keys[0]] else []) + Select(keys[1..], empties)
  }

  /** x[:64] */
  function Srls(keys: seq<string>): seq<string> {
    seq(|keys|, i requires 0 <= i < |keys| => if |keys[i]| <= 64 then keys[i] else keys[i][..64])
  }

  function Seconds(pairs: seq<(string, string)>): seq<string> {
    seq(|pairs|, i requires 0 <= i < |pairs| => pairs[i].1)
  }

  /** x.rsplit('.e', 1)[1]; None: there is no ".e", an IndexError. */
  function AfterDotE(key: string): Option<string> {
    if |key| < 2 then None
    else if key[|key| - 2..] == ".e" then Some("")
    else
      match AfterDotE(key[..|key| - 1])
      case None => None
      case Some(rest) => Some(rest + [key[|key| - 1]])
  }

  /** The error keys whose code is not a known one; None: one of them has no code. */
  function Errors(keys: seq<string>, known: set<string>): Option<seq<string>> {
    if keys == [] then Some([])
    else
      match (AfterDotE(keys[0]), Errors(keys[1..], known))
      case (Some(code), Some(rest)) => Some((if code in known then [] else [keys[0]]) + rest)
      case _ => None
  }

  /** The targets of a record in the order of the table, and whether a getter raises after them. */
  datatype Follows = Follows(targets: seq<Target>, raises: bool)

  /** FOLLOW_KEYS, with the bucket names as the table has them ("results", not "result"). */
  function FollowsOf(bucket: string, r: Record, known: set<string>): Follows {
    if bucket == "alert" then
      Follows(if r.sid.Some? then [("submission", r.sid.value)] else [], false)
    else if bucket == "submission" then
      var results := r.results.GetOr([]);
      var first := To("result", Select(results, false)) + To("emptyresult", Select(results, true));
      match Errors(r.errors.GetOr([]), known)
      case None => Follows(first, true)
      case Some(es) =>
        Follows(first + To("error", es) + To("file", Srls(results)) + To("file", Seconds(r.files.GetOr([])))
                + To("file", Srls(r.errors.GetOr([]))), false)
    else if bucket == "results" then
      Follows(if r.response.Some? then To("file", Seconds(r.response.value.supplementary + r.response.value.extracted)) else [], false)
    else Follows([], false)
  }

  /** The hash is keyed by "bucket_key"; as no bucket name has an underscore, a pair will do. */
  function HashKey(t: Target): string { t.0 + "_" + t.1 }

  predicate NoUnderscore(bucket: string) { forall i | 0 <= i < |bucket| :: bucket[i] != '_' }

  lemma BucketEnds(t: Target)
    requires NoUnderscore(t.0)
    ensures |t.0| < |HashKey(t)| && HashKey(t)[|t.0|] == '_' && forall i | 0 <= i < |t.0| :: HashKey(t)[i] != '_'
  {}

  lemma HashKeysDiffer(a: Target, b: Target)
    requires NoUnderscore(a.0) && NoUnderscore(b.0) && HashKey(a) == HashKey(b)
    ensures a == b
  {
    BucketEnds(a);
    BucketEnds(b);
    assert a.0 == HashKey(a)[..|a.0|] && b.0 == HashKey(b)[..|b.0|];
    assert a.1 == HashKey(a)[|a.0| + 1..] && b.1 == HashKey(b)[|b.0| + 1..];
  }

  /** Every bucket the table sends to is without underscore, so that no two targets share an entry. */
  lemma TargetsPlain(bucket: string, r: Record, known: set<string>, t: Target)
    requires t in FollowsOf(bucket, r, known).targets
    ensures NoUnderscore(t.0)
  {
    var results := r.results.GetOr([]);
    var first := To("result", Select(results, false)) + To("emptyresult", Select(results, true));
    hide Errors, Select;
  }

  /** Targets of any records have one entry in the hash exactly if they are the same. */
  lemma EntriesTell(b1: string, r1: Record, t1: Target, b2: string, r2: Record, t2: Target, known: set<string>)
    requires t1 in FollowsOf(b1, r1, known).targets && t2 in FollowsOf(b2, r2, known).targets
    ensures HashKey(t1) == HashKey(t2) <==> t1 == t2
  {
    hide FollowsOf, HashKey, NoUnderscore;
    TargetsPlain(b1, r1, known, t1);
    TargetsPlain(b2, r2, known, t2);
    if HashKey(t1) == HashKey(t2) { HashKeysDiffer(t1, t2); }
  }

  // ---- State ---------------------------------------------------------------------------------

  datatype Item = Item(bucket: string, key: string, follow: bool)

  datatype Message = Key(item: Item) | Kill

  datatype Outcome = Saved(record: Record) | Missing | Failed

  /** What a worker does next; `at` counts the targets already followed. */
  datatype Stage =
    | Ready | Reading(item: Item)
    | Checking(item: Item, record: Record, at: nat) | Adding(item: Item, record: Record, at: nat) | Pushing(item: Item, record: Record, at: nat)
    | Reporting(item: Item, outcome: Outcome) | Leaving | Gone

  datatype Worker = Worker(done: bool, stage: Stage)

  datatype Report = Report(worker: nat, item: Item, outcome: Outcome) | Finished(worker: nat)

  /** `read` is what the counting thread has taken from `reports`; t, e and d are its counters. */
  datatype State = State(
    known: set<string>, workers: seq<Worker>, streamed: set<Item>, kills: nat,
    backup: seq<Message>, follow: seq<Item>, hash: set<Target>, reports: seq<Report>,
    read: seq<Report>, t: nat, e: nat, d: nat)

  function Start(n: nat, known: set<string>): State {
    State(known, seq(n, i => Worker(false, Ready)), {}, 0, [], [], {}, [], [], 0, 0, 0)
  }

  function TargetsOf(s: State, item: Item, record: Record): Follows {
    if item.follow then FollowsOf(item.bucket, record, s.known) else Follows([], false)
  }

  // ---- Steps ---------------------------------------------------------------------------------

  datatype Event =
    | Streams(item: Item) | Kills
    | Pops(w: nat) | Reads(w: nat, found: Option<Record>) | Follow(w: nat) | Fails(w: nat) | Reports(w: nat) | Finishes(w: nat)
    | Counts

  function Go(s: State, w: nat, stage: Stage): State
    requires w < |s.workers|
  {
    s.(workers := s.workers[w := s.workers[w].(stage := stage)])
  }

  /** One turn of the worker's loop up to the message; a pop that times out finds the queue empty. */
  function Popped(s: State, w: nat): State
    requires w < |s.workers|
  {
    if s.workers[w].done then
      if s.follow == [] then Go(s, w, Leaving)
      else Go(s.(follow := s.follow[1..]), w, Reading(s.follow[0]))
    else if s.backup == [] then s
    else
      var r := s.(backup := s.backup[1..]);
      match s.backup[0]
      case Key(item) => Go(r, w, Reading(item))
      case Kill => r.(workers := r.workers[w := r.workers[w].(done := true)])
  }

  /** One operation on the next target: look, add to the hash, push to the follow queue. */
  function Followed(s: State, w: nat): State
    requires w < |s.workers|
  {
    match s.workers[w].stage
    case Checking(item, record, at) =>
      var f := TargetsOf(s, item, record);
      if at >= |f.targets| then Go(s, w, Reporting(item, if f.raises then Failed else Saved(record)))
      else if f.targets[at] in s.hash then Go(s, w, Checking(item, record, at + 1))
      else Go(s, w, Adding(item, record, at))
    case Adding(item, record, at) =>
      var f := TargetsOf(s, item, record);
      if at >= |f.targets| then s
      else Go(s.(hash := s.hash + {f.targets[at]}), w, Pushing(item, record, at))
    case Pushing(item, record, at) =>
      var f := TargetsOf(s, item, record);
      if at >= |f.targets| then s
      else
        Go(s.(follow := s.follow + [Item(f.targets[at].0, f.targets[at].1, true)]), w, Checking(item, record, at + 1))
    case _ => s
  }

  /** One message counted. */
  function Counted(s: State): State
    requires s.reports != []
  {
    var m := s.reports[0];
    var r := s.(reports := s.reports[1..], read := s.read + [m]);
    match m
    case Finished(_) => r.(d := s.d + 1)
    case Report(_, _, outcome) => if outcome.Failed? then r.(e := s.e + 1) else r.(t := s.t + 1)
  }

  /** None: the step is not possible. */
  function Step(s: State, e: Event): Option<State> {
    match e
    case Streams(item) =>
      if s.kills == 0 then Some(s.(backup := s.backup + [Key(item)], streamed := s.streamed + {item})) else None
    case Kills =>
      if s.kills < |s.workers| then Some(s.(backup := s.backup + [Kill], kills := s.kills + 1)) else None
    case Pops(w) =>
      if w < |s.workers| && s.workers[w].stage.Ready? then Some(Popped(s, w)) else None
    case Reads(w, found) =>
      if w < |s.workers| && s.workers[w].stage.Reading? then
        var item := s.workers[w].stage.item;
        Some(Go(s, w, match found case None => Reporting(item, Missing) case Some(r) => Checking(item, r, 0)))
      else None
    case Follow(w) =>
      if w < |s.workers| && (s.workers[w].stage.Checking? || s.workers[w].stage.Adding? || s.workers[w].stage.Pushing?)
      then Some(Followed(s, w)) else None
    case Fails(w) =>
      if w < |s.workers| && (s.workers[w].stage.Reading? || s.workers[w].stage.Checking?) then
        Some(Go(s, w, Reporting(s.workers[w].stage.item, Failed)))
      else None
    case Reports(w) =>
      if w < |s.workers| && s.workers[w].stage.Reporting? then
        var g := s.workers[w].stage;
        Some(Go(s.(reports := s.reports + [Report(w, g.item, g.outcome)]), w, Ready))
      else None
    case Finishes(w) =>
      if w < |s.workers| && s.workers[w].stage.Leaving? then Some(Go(s.(reports := s.reports + [Finished(w)]), w, Gone)) else None
    case Counts =>
      if s.reports != [] && s.d < |s.workers| then Some(Counted(s)) else None
  }

  function Run(n: nat, known: set<string>, events: seq<Event>): Option<State> {
    if events == [] then Some(Start(n, known))
    else
      match Run(n, known, events[..|events| - 1])
      case None => None
      case Some(s) => Step(s, events[|events| - 1])
  }
}
