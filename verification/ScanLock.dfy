/** ScanLock of al/core/middleman.py, as a machine. */
module ScanLock {
  // One lock per scan key, created when the first thread asks for it and forgotten when the last one
  // leaves.  Every atomic block of __enter__ and __exit__ is one step.

  import opened Prelude

  type Thread = nat

  /** A pair [count, RLock] in the table. */
  datatype Slot = Slot(count: int, lock: nat)

  /** Where a thread is: not using any key, waiting for the lock it was given, in the body, or about
      to release the lock it found on exit. */
  datatype Phase = Outside | Waiting(key: string, lock: nat) | Inside(key: string, lock: nat) | Leaving(key: string, lock: nat)

  datatype Locks = Locks(table: map<string, Slot>, owner: map<nat, Thread>, phase: map<Thread, Phase>, unused: nat)

  function PhaseOf(s: Locks, t: Thread): Phase {
    Get(s.phase, t, Outside)
  }

  const START := Locks(map[], map[], map[], 0)

  // ---- The four atomic blocks ----------------------------------------------------------------

  predicate CanRegister(s: Locks, t: Thread) { PhaseOf(s, t).Outside? }

  function Register(s: Locks, t: Thread, key: string): Locks {
    if key in s.table then
      var l := s.table[key];
      s.(table := s.table[key := Slot(l.count + 1, l.lock)], phase := s.phase[t := Waiting(key, l.lock)])
    else
      s.(table := s.table[key := Slot(1, s.unused)], phase := s.phase[t := Waiting(key, s.unused)], unused := s.unused + 1)
  }

  /** The lock is free: the code waits otherwise. */
  predicate CanAcquire(s: Locks, t: Thread) {
    PhaseOf(s, t).Waiting? && PhaseOf(s, t).lock !in s.owner
  }

  function Acquire(s: Locks, t: Thread): Locks
    requires CanAcquire(s, t)
  {
    var p := PhaseOf(s, t);
    s.(owner := s.owner[p.lock := t], phase := s.phase[t := Inside(p.key, p.lock)])
  }

  predicate CanUnregister(s: Locks, t: Thread) { PhaseOf(s, t).Inside? }

  /** None: the key is not in the table, a KeyError. */
  function Unregister(s: Locks, t: Thread): Option<Locks>
    requires CanUnregister(s, t)
  {
    var key := PhaseOf(s, t).key;
    if key !in s.table then None
    else
      var l := s.table[key];
      Some(s.(table := if l.count - 1 == 0 then s.table - {key} else s.table[key := Slot(l.count - 1, l.lock)],
              phase := s.phase[t := Leaving(key, l.lock)]))
  }

  predicate CanRelease(s: Locks, t: Thread) { PhaseOf(s, t).Leaving? }

  /** None: the thread does not own the lock, a RuntimeError. */
  function Release(s: Locks, t: Thread): Option<Locks>
    requires CanRelease(s, t)
  {
    var l := PhaseOf(s, t).lock;
    if l !in s.owner || s.owner[l] != t then None
    else Some(s.(owner := s.owner - {l}, phase := s.phase[t := Outside]))
  }

  // ---- Invariant -----------------------------------------------------------------------------

  predicate Uses(s: Locks, t: Thread, key: string) {
    var p := PhaseOf(s, t);
    (p.Waiting? || p.Inside?) && p.key == key
  }

  /** The threads between their registering and their unregistering. */
  function Users(s: Locks, key: string): set<Thread> {
    set t | t in s.phase && Uses(s, t, key)
  }

  predicate Owns(s: Locks, t: Thread, l: nat) {
    var p := PhaseOf(s, t);
    (p.Inside? || p.Leaving?) && p.lock == l
  }

  ghost predicate Counted(s: Locks, key: string) {
    if key in s.table then s.table[key].count == |Users(s, key)| && Users(s, key) != {} && s.table[key].lock < s.unused
    else Users(s, key) == {}
  }

  ghost predicate Served(s: Locks, t: Thread) {
    var p := PhaseOf(s, t);
    && (p.Waiting? || p.Inside? ==> p.key in s.table && s.table[p.key].lock == p.lock)
    && (p.Inside? || p.Leaving? ==> p.lock in s.owner && s.owner[p.lock] == t)
  }

  ghost predicate Inv(s: Locks) {
    && (forall key :: Counted(s, key))
    && (forall t :: Served(s, t))
    && (forall l | l in s.owner :: l < s.unused && Owns(s, s.owner[l], l))
    && (forall j, k | j in s.table && k in s.table && j != k :: s.table[j].lock != s.table[k].lock)
  }

  lemma StartInv()
    ensures Inv(START)
  {}

  lemma RegisterKeeps(s: Locks, t: Thread, key: string)
    requires Inv(s) && CanRegister(s, t)
    ensures Inv(Register(s, t, key))
  {
    var r := Register(s, t, key);
    forall k ensures Counted(r, k) { RegisterCounted(s, t, key, k); }
    forall k | k in s.table ensures s.table[k].lock < s.unused { assert Counted(s, k); }
    hide Counted, Users;
    forall u ensures Served(r, u) { assert Served(s, u); }
    forall l | l in r.owner ensures l < r.unused && Owns(r, r.owner[l], l) { assert Owns(s, s.owner[l], l); }
  }

  lemma RegisterCounted(s: Locks, t: Thread, key: string, k: string)
    requires Counted(s, k) && CanRegister(s, t)
    ensures Counted(Register(s, t, key), k)
  {
    RegisterUsers(s, t, key, k);
    hide Users;
  }

  lemma RegisterUsers(s: Locks, t: Thread, key: string, k: string)
    requires CanRegister(s, t)
    ensures t !in Users(s, k) && Users(Register(s, t, key), k) == if k == key then Users(s, k) + {t} else Users(s, k)
  {
    var r := Register(s, t, key);
    forall u ensures Uses(r, u, k) <==> (u == t && k == key) || Uses(s, u, k) {}
  }

  lemma AcquireKeeps(s: Locks, t: Thread)
    requires Inv(s) && CanAcquire(s, t)
    ensures Inv(Acquire(s, t))
  {
    var r := Acquire(s, t);
    assert Served(s, t) && Counted(s, PhaseOf(s, t).key);
    forall k ensures Counted(r, k) {
      assert Counted(s, k) && Users(r, k) == Users(s, k);
    }
    forall u ensures Served(r, u) { assert Served(s, u); }
    forall l | l in r.owner ensures l < r.unused && Owns(r, r.owner[l], l) {
      if l in s.owner { assert Owns(s, s.owner[l], l); }
    }
  }

  /** On exit the key is still in the table, with the lock acquired on entry. */
  lemma UnregisterKeeps(s: Locks, t: Thread)
    requires Inv(s) && CanUnregister(s, t)
    ensures var r := Unregister(s, t);
            r.Some? && Inv(r.value) && PhaseOf(r.value, t) == Leaving(PhaseOf(s, t).key, PhaseOf(s, t).lock)
  {
    assert Served(s, t);
    var key := PhaseOf(s, t).key;
    var r := Unregister(s, t).value;
    assert Counted(s, key) && t in Users(s, key) && Users(r, key) == Users(s, key) - {t};
    assert |Users(r, key)| == |Users(s, key)| - 1;
    forall k ensures Counted(r, k) {
      assert Counted(s, k);
      if k != key { assert Users(r, k) == Users(s, k); }
    }
    forall u ensures Served(r, u) {
      assert Served(s, u);
      if Uses(s, u, key) && u != t { assert u in Users(r, key); }
    }
    forall l | l in r.owner ensures l < r.unused && Owns(r, r.owner[l], l) { assert Owns(s, s.owner[l], l); }
  }

  /** The lock found on exit is the thread's own, so releasing it never fails. */
  lemma ReleaseKeeps(s: Locks, t: Thread)
    requires Inv(s) && CanRelease(s, t)
    ensures Release(s, t).Some? && Inv(Release(s, t).value)
  {
    assert Served(s, t);
    var r := Release(s, t).value;
    forall k ensures Counted(r, k) {
      assert Counted(s, k) && Users(r, k) == Users(s, k);
    }
    forall u ensures Served(r, u) {
      assert Served(s, u);
    }
    forall l | l in r.owner ensures l < r.unused && Owns(r, r.owner[l], l) { assert Owns(s, s.owner[l], l); }
  }

  // ---- Interleavings -------------------------------------------------------------------------

  datatype Event = Registers(t: Thread, key: string) | Acquires(t: Thread) | Unregisters(t: Thread) | Releases(t: Thread)

  /** None: the step is not possible, or raises. */
  function Step(s: Locks, e: Event): Option<Locks> {
    match e
    case Registers(t, key) => if CanRegister(s, t) then Some(Register(s, t, key)) else None
    case Acquires(t) => if CanAcquire(s, t) then Some(Acquire(s, t)) else None
    case Unregisters(t) => if CanUnregister(s, t) then Unregister(s, t) else None
    case Releases(t) => if CanRelease(s, t) then Release(s, t) else None
  }

  function Run(events: seq<Event>): Option<Locks> {
    if events == [] then Some(START)
    else
      match Run(events[..|events| - 1])
      case None => None
      case Some(s) => Step(s, events[|events| - 1])
  }

  lemma {:induction false} RunInv(events: seq<Event>)
    ensures Run(events).Some? ==> Inv(Run(events).value)
  {
    if events == [] {
      StartInv();
    } else {
      RunInv(events[..|events| - 1]);
      var before := Run(events[..|events| - 1]);
      if before.Some? && Run(events).Some? {
        var s := before.value;
        match events[|events| - 1]
        case Registers(t, key) => RegisterKeeps(s, t, key);
        case Acquires(t) => AcquireKeeps(s, t);
        case Unregisters(t) => UnregisterKeeps(s, t);
        case Releases(t) => ReleaseKeeps(s, t);
      }
    }
  }

  lemma MutexOf(s: Locks, t: Thread, u: Thread)
    requires Inv(s) && PhaseOf(s, t).Inside? && PhaseOf(s, u).Inside? && PhaseOf(s, t).key == PhaseOf(s, u).key
    ensures t == u
  {
    assert Served(s, t) && Served(s, u);
  }

  lemma InTable(s: Locks, key: string)
    requires Inv(s)
    ensures key in s.table <==> exists w :: Uses(s, w, key)
  {
    assert Counted(s, key);
    if key in s.table {
      var w :| w in Users(s, key);
      assert Uses(s, w, key);
    }
    if w :| Uses(s, w, key) {
      assert w in Users(s, key);
    }
  }

  /** Under every interleaving at most one thread is in the body for a key; neither the look-up nor
      the release in __exit__ fails; and a key is in the table exactly while threads are registered
      for it, with their number as its count. */
  lemma PerKeyMutex(events: seq<Event>, t: Thread, u: Thread, key: string)
    requires Run(events).Some?
    ensures var s := Run(events).value;
            && (PhaseOf(s, t).Inside? && PhaseOf(s, u).Inside? && PhaseOf(s, t).key == PhaseOf(s, u).key ==> t == u)
            && (PhaseOf(s, t).Inside? ==> Step(s, Unregisters(t)).Some?
                                          && PhaseOf(Step(s, Unregisters(t)).value, t).lock == PhaseOf(s, t).lock)
            && (PhaseOf(s, t).Leaving? ==> Step(s, Releases(t)).Some?)
            && (key in s.table <==> exists w :: Uses(s, w, key))
            && (key in s.table ==> s.table[key].count == |Users(s, key)| > 0)
  {
    RunInv(events);
    var s := Run(events).value;
    if PhaseOf(s, t).Inside? && PhaseOf(s, u).Inside? && PhaseOf(s, t).key == PhaseOf(s, u).key { MutexOf(s, t, u); }
    if PhaseOf(s, t).Inside? { UnregisterKeeps(s, t); }
    if PhaseOf(s, t).Leaving? { ReleaseKeeps(s, t); }
    assert Counted(s, key);
    InTable(s, key);
  }
}

module ScanLockObject {
  import opened Prelude
  import Lock = ScanLock

  /** The table as the threads share it. */
  class ScanLocks {
    var table: map<string, Lock.Slot>
    var owner: map<nat, Lock.Thread>
    var phase: map<Lock.Thread, Lock.Phase>
    var unused: nat

    function Abs(): Lock.Locks
      reads this
    {
      Lock.Locks(table, owner, phase, unused)
    }

    ghost predicate Valid()
      reads this
    {
      Lock.Inv(Abs())
    }

    constructor ()
      ensures Valid() && Abs() == Lock.START
    {
      table, owner, phase, unused := map[], map[], map[], 0;
      new;
      Lock.StartInv();
    }

    /** The first half of __enter__, under SCAN_LOCK_LOCK. */
    method Register(t: Lock.Thread, key: string)
      requires Valid() && Lock.CanRegister(Abs(), t)
      modifies this
      ensures Valid() && Abs() == Lock.Register(old(Abs()), t, key)
      ensures key in table && table[key].count == |Lock.Users(old(Abs()), key)| + 1
    {
      Lock.RegisterKeeps(Abs(), t, key);
      assert Lock.Counted(Abs(), key);
      if key !in table {
        table, unused := table[key := Lock.Slot(0, unused)], unused + 1;
      }
      var l := table[key];
      table := table[key := l.(count := l.count + 1)];
      phase := phase[t := Lock.Waiting(key, l.lock)];
      assert Abs() == Lock.Register(old(Abs()), t, key);
    }

    /** The second half, once the lock is free: from then on the thread is alone in the body. */
    method Acquire(t: Lock.Thread)
      requires Valid() && Lock.CanAcquire(Abs(), t)
      modifies this
      ensures Valid() && Abs() == Lock.Acquire(old(Abs()), t)
      ensures Lock.PhaseOf(Abs(), t) == Lock.Inside(Lock.PhaseOf(old(Abs()), t).key, Lock.PhaseOf(old(Abs()), t).lock)
      ensures forall u | Lock.PhaseOf(Abs(), u).Inside? && Lock.PhaseOf(Abs(), u).key == Lock.PhaseOf(Abs(), t).key :: u == t
    {
      Lock.AcquireKeeps(Abs(), t);
      var p := phase[t];
      owner, phase := owner[p.lock := t], phase[t := Lock.Inside(p.key, p.lock)];
      forall u | Lock.PhaseOf(Abs(), u).Inside? && Lock.PhaseOf(Abs(), u).key == Lock.PhaseOf(Abs(), t).key ensures u == t {
        Lock.MutexOf(Abs(), u, t);
      }
    }

    /** The first half of __exit__, under SCAN_LOCK_LOCK: the lock found is the one entered with,
        and the key goes with its last user. */
    method Unregister(t: Lock.Thread)
      requires Valid() && Lock.CanUnregister(Abs(), t)
      modifies this
      ensures Valid() && Some(Abs()) == Lock.Unregister(old(Abs()), t)
      ensures Lock.PhaseOf(Abs(), t).Leaving? && Lock.PhaseOf(Abs(), t).lock == Lock.PhaseOf(old(Abs()), t).lock
      ensures var key := Lock.PhaseOf(old(Abs()), t).key;
              key in table <==> exists u :: u != t && Lock.Uses(old(Abs()), u, key)
    {
      Lock.UnregisterKeeps(Abs(), t);
      var key := phase[t].key;
      var l := table[key];
      table := table[key := l.(count := l.count - 1)];
      if l.count - 1 == 0 {
        table := table - {key};
        assert table == old(table) - {key};
      }
      phase := phase[t := Lock.Leaving(key, l.lock)];
      Lock.InTable(Abs(), key);
      assert forall u :: Lock.Uses(Abs(), u, key) <==> u != t && Lock.Uses(old(Abs()), u, key);
    }

    /** The second half: releasing never fails, and nobody owns the lock afterwards. */
    method Release(t: Lock.Thread)
      requires Valid() && Lock.CanRelease(Abs(), t)
      modifies this
      ensures Valid() && Some(Abs()) == Lock.Release(old(Abs()), t)
      ensures Lock.PhaseOf(Abs(), t).Outside? && Lock.PhaseOf(old(Abs()), t).lock !in owner
    {
      Lock.ReleaseKeeps(Abs(), t);
      owner, phase := owner - {phase[t].lock}, phase[t := Lock.Outside];
    }

    /** Whatever the threads have done so far, two in the body for one key are one. */
    lemma MutualExclusion(t: Lock.Thread, u: Lock.Thread)
      requires Valid() && Lock.PhaseOf(Abs(), t).Inside? && Lock.PhaseOf(Abs(), u).Inside?
      requires Lock.PhaseOf(Abs(), t).key == Lock.PhaseOf(Abs(), u).key
      ensures t == u
    {
      Lock.MutexOf(Abs(), t, u);
    }
  }
}
