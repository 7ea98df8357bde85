/** What the follow table of the backup picks out of a record. */
module BackupLaws {
  import opened Prelude
  import opened Backup
  import opened BackupProofs
  import opened BackupTheorems

  // ---- Empty results -----------------------------------------------------------------------------

  /** The key is that of an empty result: it ends in ".e". */
  ghost predicate EndsInE(key: string) {
    exists stem: string :: key == stem + ".e"
  }

  lemma EndsSays(key: string)
    ensures IsEmptyResult(key) <==> EndsInE(key)
  {
    if IsEmptyResult(key) { assert key == key[..|key| - 2] + ".e"; }
  }

  /** The keys picked for results, or for empty results, are the right ones of the record. */
  lemma {:induction false} SelectSays(keys: seq<string>, empties: bool, k: string)
    ensures k in Select(keys, empties) <==> k in keys && (EndsInE(k) <==> empties)
  {
    hide EndsInE;
    if keys != [] {
      SelectSays(keys[1..], empties, k);
      EndsSays(keys[0]);
      hide IsEmptyResult;
      assert k in keys <==> k == keys[0] || k in keys[1..];
    }
  }

  /** They are picked in the order of the record. */
  lemma {:induction false} SelectInOrder(xs: seq<string>, ys: seq<string>, empties: bool)
    ensures Select(xs + ys, empties) == Select(xs, empties) + Select(ys, empties)
  {
    hide IsEmptyResult;
    if xs == [] {
      assert xs + ys == ys;
    } else {
      SelectInOrder(xs[1..], ys, empties);
      assert (xs + ys)[1..] == xs[1..] + ys;
      var first := if IsEmptyResult(xs[0]) == empties then [xs[0]] else [];
      assert first + (Select(xs[1..], empties) + Select(ys, empties)) == (first + Select(xs[1..], empties)) + Select(ys, empties);
    }
  }

  /** Every result of the record is picked by one of the two getters, as often as it is there. */
  lemma {:induction false} SelectSplits(keys: seq<string>)
    ensures multiset(Select(keys, false)) + multiset(Select(keys, true)) == multiset(keys)
  {
    if keys != [] {
      SelectSplits(keys[1..]);
      assert keys == [keys[0]] + keys[1..];
    }
  }

  // ---- Error codes -------------------------------------------------------------------------------

  /** ".e" stands at position `i`. */
  predicate DotEAt(key: string, i: int) {
    0 <= i && i + 2 <= |key| && key[i..i + 2] == ".e"
  }

  /** The code is what follows the last ".e" of the key. */
  ghost predicate HasCode(key: string, code: string) {
    exists i :: DotEAt(key, i) && code == key[i + 2..] && forall j :: DotEAt(key, j) ==> j <= i
  }

  ghost predicate HasNoCode(key: string) {
    forall i :: !DotEAt(key, i)
  }

  lemma {:induction false} CodeSays(key: string)
    ensures match AfterDotE(key) case None => HasNoCode(key) case Some(code) => HasCode(key, code)
  {
    var n := |key|;
    if n >= 2 && key[n - 2..] == ".e" {
      assert DotEAt(key, n - 2) && key[n - 2 + 2..] == "";
    } else if n >= 2 {
      var front := key[..n - 1];
      CodeSays(front);
      assert key == front + [key[n - 1]];
      assert key[n - 2..] == key[n - 2..n - 2 + 2];
      forall j ensures DotEAt(key, j) <==> DotEAt(front, j) {
        if 0 <= j && j + 2 <= n - 1 { assert key[j..j + 2] == front[j..j + 2]; }
      }
      if AfterDotE(front).Some? {
        var code := AfterDotE(front).value;
        var i :| DotEAt(front, i) && code == front[i + 2..] && forall j :: DotEAt(front, j) ==> j <= i;
        assert DotEAt(key, i);
        CodeGrows(front, key[n - 1], i + 2);
      }
    }
  }

  lemma CodeGrows(front: string, last: char, i: nat)
    requires i <= |front|
    ensures (front + [last])[i..] == front[i..] + [last]
  {}

  lemma OneCode(key: string, a: string, b: string)
    requires HasCode(key, a) && HasCode(key, b)
    ensures a == b
  {}

  lemma CodeOrNone(key: string, code: string)
    requires HasCode(key, code)
    ensures !HasNoCode(key)
  {}

  /** The error keys picked are those whose code is unknown; the getter raises exactly if some error key
      has no code. */
  lemma {:induction false} ErrorsSay(keys: seq<string>, known: set<string>, k: string)
    ensures Errors(keys, known).None? <==> exists x :: x in keys && HasNoCode(x)
    ensures Errors(keys, known).Some? ==>
              (k in Errors(keys, known).value <==> k in keys && exists code :: HasCode(k, code) && code !in known)
  {
    hide HasCode, HasNoCode, AfterDotE;
    if keys != [] {
      ErrorsSay(keys[1..], known, k);
      CodeSays(keys[0]);
      assert forall x :: x in keys <==> x == keys[0] || x in keys[1..];
      match AfterDotE(keys[0])
      case None => assert keys[0] in keys;
      case Some(code) =>
        CodeOrNone(keys[0], code);
        forall c | HasCode(keys[0], c) ensures c == code { OneCode(keys[0], c, code); }
    }
  }

  // ---- The table ---------------------------------------------------------------------------------

  /** The first 64 characters of the key. */
  ghost predicate Starts(srl: string, key: string) {
    srl <= key && (|srl| == 64 || (srl == key && |key| < 64))
  }

  lemma SrlsSay(keys: seq<string>, srl: string)
    ensures srl in Srls(keys) <==> exists k :: k in keys && Starts(srl, k)
  {
    if srl in Srls(keys) {
      var i :| 0 <= i < |keys| && Srls(keys)[i] == srl;
      assert keys[i] in keys && Starts(srl, keys[i]);
    }
    if k :| k in keys && Starts(srl, k) {
      var i :| 0 <= i < |keys| && keys[i] == k;
      assert Srls(keys)[i] == srl;
    }
  }

  lemma SecondsSay(pairs: seq<(string, string)>, x: string)
    ensures x in Seconds(pairs) <==> exists p :: p in pairs && p.1 == x
  {
    if x in Seconds(pairs) {
      var i :| 0 <= i < |pairs| && Seconds(pairs)[i] == x;
      assert pairs[i] in pairs;
    }
    if p :| p in pairs && p.1 == x {
      var i :| 0 <= i < |pairs| && pairs[i] == p;
      assert Seconds(pairs)[i] == x;
    }
  }

  lemma ToSays(bucket: string, keys: seq<string>, t: Target)
    ensures t in To(bucket, keys) <==> t.0 == bucket && t.1 in keys
  {
    if t.0 == bucket && t.1 in keys {
      var i :| 0 <= i < |keys| && keys[i] == t.1;
      assert To(bucket, keys)[i] == t;
    }
  }

  /** What a submission's record refers to, when all its error keys have codes. */
  ghost predicate Refers(r: Record, known: set<string>, t: Target) {
    var results, errors, files := r.results.GetOr([]), r.errors.GetOr([]), r.files.GetOr([]);
    || (t.0 == "result" && t.1 in results && !EndsInE(t.1))
    || (t.0 == "emptyresult" && t.1 in results && EndsInE(t.1))
    || (t.0 == "error" && t.1 in errors && exists code :: HasCode(t.1, code) && code !in known)
    || (t.0 == "file" && exists k :: (k in results || k in errors) && Starts(t.1, k))
    || (t.0 == "file" && exists p :: p in files && p.1 == t.1)
  }

  /** A submission leads to its results, empty results, errors of unknown code and files; if some error key
      has no code, only its results and empty results are followed, and the record counts as failed. */
  lemma SubmissionSays(r: Record, known: set<string>, t: Target)
    ensures var f := FollowsOf("submission", r, known);
            && (f.raises <==> exists k :: k in r.errors.GetOr([]) && HasNoCode(k))
            && (t in f.targets <==> Refers(r, known, t) && (f.raises ==> t.0 == "result" || t.0 == "emptyresult"))
  {
    hide HasCode, HasNoCode, EndsInE, Errors, Select, Srls, Seconds, To;
    var results, errors, files := r.results.GetOr([]), r.errors.GetOr([]), r.files.GetOr([]);
    SelectSays(results, false, t.1);
    SelectSays(results, true, t.1);
    ErrorsSay(errors, known, t.1);
    SrlsSay(results, t.1);
    SrlsSay(errors, t.1);
    SecondsSay(files, t.1);
    ToSays("result", Select(results, false), t);
    ToSays("emptyresult", Select(results, true), t);
    ToSays("file", Srls(results), t);
    ToSays("file", Srls(errors), t);
    ToSays("file", Seconds(files), t);
    if Errors(errors, known).Some? { ToSays("error", Errors(errors, known).value, t); }
    hide Starts;
  }

  /** An alert leads to its submission, a record of bucket "results" to the files of its response, and
      nothing else leads anywhere. */
  lemma OthersSay(bucket: string, r: Record, known: set<string>, t: Target)
    requires bucket != "submission"
    ensures var f := FollowsOf(bucket, r, known);
            && !f.raises
            && (bucket == "alert" ==> (t in f.targets <==> t.0 == "submission" && r.sid == Some(t.1)))
            && (bucket == "results" ==>
                  (t in f.targets <==>
                     && t.0 == "file" && r.response.Some?
                     && exists p :: (p in r.response.value.supplementary || p in r.response.value.extracted) && p.1 == t.1))
            && (bucket != "alert" && bucket != "results" ==> f.targets == [])
  {
    hide Seconds, To;
    if bucket == "results" && r.response.Some? {
      var both := r.response.value.supplementary + r.response.value.extracted;
      SecondsSay(both, t.1);
      ToSays("file", Seconds(both), t);
      assert forall p :: p in both <==> p in r.response.value.supplementary || p in r.response.value.extracted;
    }
  }

  // ---- When all workers have left ----------------------------------------------------------------

  /** The record was saved under this item, with the keys it refers to to be followed. */
  ghost predicate SavedWith(s: State, item: Item, r: Record) {
    item.follow && exists m :: m in Log(s) && m.Report? && m.item == item && m.outcome == Saved(r)
  }

  /** However the workers interleave: once all have left, everything a saved submission refers to has been
      processed, each result in the bucket of results, or of empty results if it ends in ".e"; and every
      error key of it has a code. */
  lemma SubmissionsComplete(n: nat, known: set<string>, events: seq<Event>, item: Item, r: Record, t: Target)
    requires n > 0 && Run(n, known, events).Some? && AllOut(Run(n, known, events).value)
    requires SavedWith(Run(n, known, events).value, item, r) && item.bucket == "submission"
    ensures Refers(r, known, t) ==> Processed(Run(n, known, events).value, Item(t.0, t.1, true))
    ensures !exists k :: k in r.errors.GetOr([]) && HasNoCode(k)
  {
    hide Processed, AllOut, Run, FollowsOf, Refers, HasNoCode;
    BackupComplete(n, known, events);
    SavedClean(n, known, events, item, r);
    SubmissionSays(r, known, t);
    var s := Run(n, known, events).value;
    var m :| m in Log(s) && m.Report? && m.item == item && m.outcome == Saved(r);
  }

  /** A record is saved only if no getter raised on it. */
  lemma SavedClean(n: nat, known: set<string>, events: seq<Event>, item: Item, r: Record)
    requires Run(n, known, events).Some? && SavedWith(Run(n, known, events).value, item, r)
    ensures Run(n, known, events).value.known == known && !FollowsOf(item.bucket, r, known).raises
  {
    RunInv(n, known, events);
    hide QueueInv, FollowInv, CountInv, FollowsOf, Safe, Due, WorkerInv, InHash, Run;
    var s := Run(n, known, events).value;
    var m :| m in Log(s) && m.Report? && m.item == item && m.outcome == Saved(r);
    assert ReportInv(s, m);
  }

  /** In particular each of its results. */
  lemma ResultsComplete(n: nat, known: set<string>, events: seq<Event>, item: Item, r: Record, k: string)
    requires n > 0 && Run(n, known, events).Some? && AllOut(Run(n, known, events).value)
    requires SavedWith(Run(n, known, events).value, item, r) && item.bucket == "submission" && k in r.results.GetOr([])
    ensures Processed(Run(n, known, events).value, Item(if EndsInE(k) then "emptyresult" else "result", k, true))
  {
    hide Processed, AllOut, Run, EndsInE, HasNoCode, SavedWith;
    SubmissionsComplete(n, known, events, item, r, (if EndsInE(k) then "emptyresult" else "result", k));
  }
}
