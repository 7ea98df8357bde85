/** The distributed backup: what holds when the workers have left and the counting thread stops. */
module BackupTheorems {
  import opened Prelude
  import opened Backup
  import opened BackupProofs

  // ---- The counting thread -------------------------------------------------------------------

  function NumFinished(log: seq<Report>): nat {
    if log == [] then 0 else NumFinished(log[..|log| - 1]) + if log[|log| - 1].Finished? then 1 else 0
  }

  function FinishedIn(log: seq<Report>): set<nat> {
    set m | m in log && m.Finished? :: m.worker
  }

  /** A worker reports nothing after it said it is done. */
  ghost predicate LastWord(log: seq<Report>) {
    forall i, j :: 0 <= i < j < |log| && log[i].Finished? ==> log[j].worker != log[i].worker
  }

  ghost predicate CountInv(s: State) {
    && s.d == NumFinished(s.read) && s.t + s.e + s.d == |s.read|
    && LastWord(Log(s))
    && (forall m | m in Log(s) :: m.worker < |s.workers| && (m.Finished? ==> s.workers[m.worker].stage.Gone?))
  }

  lemma {:induction false} FinishedCount(log: seq<Report>)
    requires LastWord(log)
    ensures |FinishedIn(log)| == NumFinished(log)
  {
    if log == [] {
      assert FinishedIn(log) == {};
    } else {
      var front, last := log[..|log| - 1], log[|log| - 1];
      assert log == front + [last];
      FinishedCount(front);
      if last.Finished? {
        assert FinishedIn(log) == FinishedIn(front) + {last.worker};
        forall i | 0 <= i < |front| && front[i].Finished? ensures front[i].worker != last.worker { assert log[i] == front[i]; }
      } else {
        assert FinishedIn(log) == FinishedIn(front);
      }
    }
  }

  lemma CountStep(s: State, e: Event)
    requires CountInv(s) && Step(s, e).Some?
    ensures CountInv(Step(s, e).value)
  {
    hide FollowsOf, Popped, Followed, CountInv, Log;
    if e.Counts? {
      CountedKeeps(s);
    } else if e.Reports? || e.Finishes? {
      Appended(s, e);
    } else {
      SameLog(s, e);
      StillGone(s, e);
      SameCounts(s, Step(s, e).value);
    }
  }

  lemma CountedKeeps(s: State)
    requires CountInv(s) && s.reports != []
    ensures CountInv(Counted(s))
  {
    var r, m := Counted(s), s.reports[0];
    assert s.reports == [m] + s.reports[1..];
    assert Log(r) == Log(s);
    assert r.read[..|r.read| - 1] == s.read;
  }

  lemma SameLog(s: State, e: Event)
    requires Step(s, e).Some? && !e.Counts? && !e.Reports? && !e.Finishes?
    ensures var r := Step(s, e).value; r.reports == s.reports && r.read == s.read && r.t == s.t && r.e == s.e && r.d == s.d
  {
    hide FollowsOf;
  }

  lemma SameCounts(s: State, r: State)
    requires CountInv(s) && r.reports == s.reports && r.read == s.read && r.t == s.t && r.e == s.e && r.d == s.d
    requires |r.workers| == |s.workers| && forall w | 0 <= w < |s.workers| && s.workers[w].stage.Gone? :: r.workers[w].stage.Gone?
    ensures CountInv(r)
  {
    assert Log(r) == Log(s);
  }

  lemma StillGone(s: State, e: Event)
    requires Step(s, e).Some?
    ensures |Step(s, e).value.workers| == |s.workers|
    ensures forall w | 0 <= w < |s.workers| && s.workers[w].stage.Gone? :: Step(s, e).value.workers[w].stage.Gone?
  {
    hide FollowsOf;
  }

  lemma Appended(s: State, e: Event)
    requires CountInv(s) && Step(s, e).Some? && (e.Reports? || e.Finishes?)
    ensures CountInv(Step(s, e).value)
  {
    var r := Step(s, e).value;
    var m := r.reports[|s.reports|];
    assert Log(r) == Log(s) + [m] && m.worker == e.w;
    StillGone(s, e);
    forall i, j | 0 <= i < j < |Log(r)| && Log(r)[i].Finished? ensures Log(r)[j].worker != Log(r)[i].worker {
      if j == |Log(s)| { assert Log(s)[i] in Log(s); }
    }
  }

  // ---- Runs ----------------------------------------------------------------------------------

  ghost predicate Inv(s: State) { QueueInv(s) && FollowInv(s) && ItemInv(s) && CountInv(s) }

  lemma StartInv(n: nat, known: set<string>)
    ensures Inv(Start(n, known))
  {
    var s := Start(n, known);
    DoneBound(s.workers);
    assert Log(s) == [];
  }

  lemma {:induction false} RunInv(n: nat, known: set<string>, events: seq<Event>)
    ensures var r := Run(n, known, events); r.Some? ==> Inv(r.value) && |r.value.workers| == n && r.value.known == known
  {
    hide QueueInv, FollowInv, ItemInv, CountInv, Step;
    if events == [] {
      StartInv(n, known);
    } else {
      var e := events[|events| - 1];
      RunInv(n, known, events[..|events| - 1]);
      var before := Run(n, known, events[..|events| - 1]);
      if before.Some? && Step(before.value, e).Some? {
        QueueStep(before.value, e);
        FollowStep(before.value, e);
        ItemStep(before.value, e);
        CountStep(before.value, e);
        HashGrows(before.value, e);
      }
    }
  }

  ghost predicate AllOut(s: State) { forall w | 0 <= w < |s.workers| :: Out(s.workers[w].stage) }

  /** Everything a saved record refers to, by the table, was processed too. */
  ghost predicate Closed(s: State) {
    forall m | m in Log(s) && m.Report? && m.outcome.Saved? && m.item.follow ::
      forall t | t in FollowsOf(m.item.bucket, m.outcome.record, s.known).targets :: Processed(s, ItemOf(t))
  }

  lemma QueuesEmpty(s: State)
    requires Inv(s) && |s.workers| > 0 && AllOut(s)
    ensures s.backup == [] && s.follow == [] && s.kills == |s.workers|
  {
    hide ItemInv, CountInv;
    DoneBound(s.workers);
    NoneLeft(s.backup);
  }

  lemma NoneLeft(q: seq<Message>)
    requires NoKeys(q) && KillsIn(q) == 0
    ensures q == []
  {}

  lemma SafeIsProcessed(s: State, item: Item)
    requires s.backup == [] && s.follow == [] && AllOut(s) && Safe(s, item)
    ensures Processed(s, item)
  {
    forall w | 0 <= w < |s.workers| ensures !Holding(s.workers[w].stage, item) {
      assert Out(s.workers[w].stage);
    }
  }

  /** However the workers interleave: once all have left, both queues are empty, every streamed key
      was processed, and the processed keys are closed under FOLLOW_KEYS as the table is written. */
  lemma BackupComplete(n: nat, known: set<string>, events: seq<Event>)
    requires n > 0 && Run(n, known, events).Some? && AllOut(Run(n, known, events).value)
    ensures var s := Run(n, known, events).value;
            && s.backup == [] && s.follow == [] && s.kills == n
            && (forall item | item in s.streamed :: Processed(s, item))
            && Closed(s)
  {
    hide FollowsOf, Safe, Processed;
    RunInv(n, known, events);
    var s := Run(n, known, events).value;
    QueuesEmpty(s);
    forall item | item in s.streamed ensures Processed(s, item) {
      SafeIsProcessed(s, item);
    }
    forall m, t | m in Log(s) && m.Report? && m.outcome.Saved? && m.item.follow
                  && t in FollowsOf(m.item.bucket, m.outcome.record, s.known).targets
      ensures Processed(s, ItemOf(t))
    {
      TargetProcessed(s, m, t);
    }
  }

  lemma TargetProcessed(s: State, m: Report, t: Target)
    requires ItemInv(s) && s.backup == [] && s.follow == [] && AllOut(s)
    requires m in Log(s) && m.Report? && m.outcome.Saved? && m.item.follow
    requires t in FollowsOf(m.item.bucket, m.outcome.record, s.known).targets
    ensures Processed(s, ItemOf(t))
  {
    hide FollowsOf, Safe, Processed, WorkerInv, Log;
    assert ReportInv(s, m);
    assert t in s.hash;
    assert Due(s, t);
    forall w: nat ensures !Announcing(s, w, t) {
      assert w < |s.workers| ==> Out(s.workers[w].stage);
    }
    SafeIsProcessed(s, ItemOf(t));
  }

  lemma {:induction false} AllOfThem(xs: set<nat>, n: nat)
    requires |xs| == n && forall x | x in xs :: x < n
    ensures forall x: nat | x < n :: x in xs
  {
    if n > 0 {
      if n - 1 in xs {
        AllOfThem(xs - {n - 1}, n - 1);
      } else {
        AllBelow(xs, n - 1);
      }
    }
  }

  lemma {:induction false} AllBelow(xs: set<nat>, n: nat)
    requires forall x | x in xs :: x < n
    ensures |xs| <= n
  {
    if n == 0 {
      assert forall x :: x !in xs;
    } else {
      AllBelow(xs - {n - 1}, n - 1);
      assert |xs - {n - 1}| >= |xs| - 1;
    }
  }

  /** The counting thread stops once it has counted as many done messages as there are workers; by
      then it has read every report, so its success and error counts add up to their number, and
      every worker is gone. */
  lemma CountsEverything(n: nat, known: set<string>, events: seq<Event>)
    requires Run(n, known, events).Some? && Run(n, known, events).value.d == n
    ensures var s := Run(n, known, events).value;
            s.reports == [] && s.t + s.e + n == |Log(s)| && AllOut(s) && NumFinished(Log(s)) == n
  {
    RunInv(n, known, events);
    var s := Run(n, known, events).value;
    assert LastWord(s.read) by {
      forall i, j | 0 <= i < j < |s.read| && s.read[i].Finished? ensures s.read[j].worker != s.read[i].worker {
        assert Log(s)[i] == s.read[i] && Log(s)[j] == s.read[j];
      }
    }
    FinishedCount(s.read);
    forall w | w in FinishedIn(s.read) ensures w < n && s.workers[w].stage.Gone? {
      assert Finished(w) in Log(s);
    }
    AllOfThem(FinishedIn(s.read), n);
    forall w: nat | w < |s.workers| ensures Out(s.workers[w].stage) {
      assert w in FinishedIn(s.read);
    }
    forall m ensures m !in s.reports {
      if m in s.reports {
        NotYetRead(s, m);
        assert false;
      }
    }
    NoMembers(s.reports);
    assert s.read + [] == s.read;
  }

  /** Whoever still has a report in the queue has not been counted as finished. */
  lemma NotYetRead(s: State, m: Report)
    requires CountInv(s) && m in s.reports
    ensures m.worker < |s.workers| && m.worker !in FinishedIn(s.read)
  {
    var j :| 0 <= j < |s.reports| && s.reports[j] == m;
    assert Log(s)[|s.read| + j] == m && m in Log(s);
    forall i | 0 <= i < |s.read| && s.read[i].Finished? ensures s.read[i].worker != m.worker {
      assert Log(s)[i] == s.read[i];
    }
  }

  // ---- The counting loop ---------------------------------------------------------------------

  /** The counting thread's loop over the messages that arrive; `n` is the number of workers. */
  method CountReports(arriving: seq<Report>, n: nat) returns (successes: nat, errors: nat, read: nat)
    requires n > 0 && NumFinished(arriving) >= n
    ensures 0 < read <= |arriving| && NumFinished(arriving[..read]) == n && arriving[read - 1].Finished?
    ensures forall k | 0 <= k < read :: NumFinished(arriving[..k]) < n
    ensures successes + errors + n == read
  {
    var finished := 0;
    successes, errors, read := 0, 0, 0;
    while finished != n
      invariant read <= |arriving| && finished == NumFinished(arriving[..read]) <= n
      invariant forall k | 0 <= k < read :: NumFinished(arriving[..k]) < n
      invariant successes + errors + finished == read
      invariant finished == n ==> read > 0 && arriving[read - 1].Finished?
      decreases |arriving| - read
    {
      assert arriving[..|arriving|] == arriving;
      assert arriving[..read + 1][..read] == arriving[..read];
      if arriving[read].Finished? {
        finished := finished + 1;
      } else if arriving[read].outcome.Failed? {
        errors := errors + 1;
      } else {
        successes := successes + 1;
      }
      read := read + 1;
    }
  }
}
