/** The bodies of submitter, completed and timed_out, inside the scan key's lock, with their loops. */
module Ingester {
  import opened Prelude
  import opened Duplicates

  /** The finals a completion makes of a list of notices. */
  function FinalsOf(ns: seq<nat>, key: string, sid: string, score: int): (fs: seq<Final>)
    ensures |fs| == |ns|
  {
    seq(|ns|, i requires 0 <= i < |ns| => Final(ns[i], key, sid, score))
  }

  class Queues {
    var scanning: map<string, nat>
    var dups: map<string, seq<nat>>
    var finals: seq<Final>
    var late: seq<nat>

    constructor ()
      ensures scanning == map[] && dups == map[] && finals == [] && late == []
    {
      scanning, dups, finals, late := map[], map[], [], [];
    }

    function Waiting(key: string): seq<nat>
      reads this
    {
      Get(dups, key, [])
    }

    /** dupq.pop(key, blocking=False) */
    method PopDup(key: string) returns (n: Option<nat>)
      modifies `dups
      ensures old(Waiting(key)) == [] ==> n == None && Waiting(key) == []
      ensures old(Waiting(key)) != [] ==> n == Some(old(Waiting(key))[0]) && Waiting(key) == old(Waiting(key))[1..]
      ensures forall k | k != key :: Waiting(k) == old(Waiting(k))
    {
      var q := Get(dups, key, []);
      if q == [] { return None; }
      dups := dups[key := q[1..]];
      n := Some(q[0]);
    }

    /** submitter: is the notice a duplicate of a scan in progress? */
    method Submit(key: string, notice: nat) returns (duplicate: bool)
      modifies `scanning, `dups
      ensures duplicate <==> key in old(scanning)
      ensures scanning == if duplicate then old(scanning) else old(scanning)[key := notice]
      ensures Waiting(key) == if duplicate then old(Waiting(key)) + [notice] else old(Waiting(key))
      ensures forall k | k != key :: Waiting(k) == old(Waiting(k))
    {
      if key in scanning {
        dups := dups[key := Get(dups, key, []) + [notice]];
        return true;
      }
      scanning := scanning[key := notice];
      duplicate := false;
    }

    /** exhaust: pop until the queue is empty. */
    method Exhaust(key: string) returns (drained: seq<nat>)
      modifies `dups
      ensures drained == old(Waiting(key)) && Waiting(key) == []
      ensures forall k | k != key :: Waiting(k) == old(Waiting(k))
    {
      drained := [];
      var dup := PopDup(key);
      while dup.Some?
        invariant old(Waiting(key)) == drained + (if dup.Some? then [dup.value] else []) + Waiting(key)
        invariant dup.None? ==> Waiting(key) == []
        invariant forall k | k != key :: Waiting(k) == old(Waiting(k))
        decreases |Waiting(key)|, if dup.Some? then 1 else 0
      {
        drained := drained + [dup.value];
        dup := PopDup(key);
      }
    }

    /** completed: the scan's own notice first, then every duplicate, in the order they came.  For a
        scan that is not known, a notice made from the message's metadata, if that gives one. */
    method Completed(key: string, sid: string, score: int, made: Option<nat>)
      modifies `scanning, `dups, `finals
      ensures key !in old(scanning) ==>
                && scanning == old(scanning) && Waiting(key) == old(Waiting(key))
                && finals == old(finals) + FinalsOf(if made.Some? then [made.value] else [], key, sid, score)
      ensures key in old(scanning) ==>
                && scanning == old(scanning) - {key} && Waiting(key) == []
                && finals == old(finals) + FinalsOf([old(scanning)[key]] + old(Waiting(key)), key, sid, score)
      ensures forall k | k != key :: Waiting(k) == old(Waiting(k))
    {
      if key !in scanning {
        if made.Some? { finals := finals + [Final(made.value, key, sid, score)]; }
        return;
      }
      ghost var own := scanning[key];
      ghost var parked := Waiting(key);
      finals := finals + [Final(scanning[key], key, sid, score)];
      scanning := scanning - {key};
      var drained := Exhaust(key);
      for i := 0 to |drained|
        invariant finals == old(finals) + [Final(own, key, sid, score)] + FinalsOf(drained[..i], key, sid, score)
        invariant scanning == old(scanning) - {key} && Waiting(key) == []
        invariant forall k | k != key :: Waiting(k) == old(Waiting(k))
      {
        assert FinalsOf(drained[..i + 1], key, sid, score)
            == FinalsOf(drained[..i], key, sid, score) + [Final(drained[i], key, sid, score)];
        finals := finals + [Final(drained[i], key, sid, score)];
      }
      assert drained[..|drained|] == drained;
      assert FinalsOf([own] + parked, key, sid, score) == [Final(own, key, sid, score)] + FinalsOf(parked, key, sid, score);
    }

    /** timed_out: the scan and its duplicates are dropped. */
    method TimedOut(key: string) returns (actual: bool)
      modifies `scanning, `dups, `late
      ensures actual <==> key in old(scanning) || old(Waiting(key)) != []
      ensures scanning == old(scanning) - {key} && Waiting(key) == []
      ensures late == old(late) + (if key in old(scanning) then [old(scanning)[key]] else []) + old(Waiting(key))
      ensures forall k | k != key :: Waiting(k) == old(Waiting(k))
    {
      actual := key in scanning;
      if key in scanning { late := late + [scanning[key]]; }
      scanning := scanning - {key};
      ghost var before, parked := late, Waiting(key);
      var dup := PopDup(key);
      if dup.Some? { actual := true; }
      ghost var gone: seq<nat> := [];
      while dup.Some?
        invariant scanning == old(scanning) - {key} && late == before + gone
        invariant parked == gone + (if dup.Some? then [dup.value] else []) + Waiting(key)
        invariant dup.None? ==> Waiting(key) == []
        invariant forall k | k != key :: Waiting(k) == old(Waiting(k))
        decreases |Waiting(key)|, if dup.Some? then 1 else 0
      {
        late, gone := late + [dup.value], gone + [dup.value];
        dup := PopDup(key);
      }
      assert gone == parked;
    }
  }
}
