/** The allocation loop of FlexManager (al/core/agents.py). */
module FlexAllocator {
  // One worker of the busiest service per round, the others following in proportion to their queues,
  // until nothing fits any more.  Exact arithmetic stands in for the float ratio.

  import opened Prelude

  const MAX_WORKERS: nat := 50

  datatype Service = Service(queueSize: nat, cores: real, ram: int)

  datatype Allocation = Allocation(cpu: real, ram: int, workers: seq<nat>, failed: set<nat>)

  /** Services as they are found: the busiest first, and with something queued. */
  ghost predicate Candidates(services: seq<Service>) {
    && services != [] && services[0].queueSize > 0
    && forall i | 0 <= i < |services| ::
         services[i].queueSize <= services[0].queueSize && services[i].cores >= 0.0 && services[i].ram >= 0
  }

  function Start(services: seq<Service>, cores: real, ram: int): Allocation {
    Allocation(cores - 0.1, ram - 256, seq(|services|, i => 0), {})
  }

  predicate Fits(a: Allocation, s: Service, i: nat)
    requires i < |a.workers|
  {
    s.cores <= a.cpu && s.ram <= a.ram && a.workers[i] < MAX_WORKERS
  }

  /** Allocate one worker of service i, or mark it as failed. */
  function TryOne(a: Allocation, services: seq<Service>, i: nat): Allocation
    requires i < |services| == |a.workers|
  {
    if Fits(a, services[i], i) then
      a.(cpu := a.cpu - services[i].cores, ram := a.ram - services[i].ram, workers := a.workers[i := a.workers[i] + 1])
    else a.(failed := a.failed + {i})
  }

  /** int(ratio * allocation of the main service) */
  function Share(a: Allocation, services: seq<Service>, i: nat): nat
    requires i < |services| == |a.workers| && services[0].queueSize > 0
  {
    services[i].queueSize * a.workers[0] / services[0].queueSize
  }

  /** Is it time for service i? */
  predicate Due(a: Allocation, services: seq<Service>, i: nat)
    requires i < |services| == |a.workers| && services[0].queueSize > 0
  {
    (Share(a, services, i) != a.workers[i] || 0 in a.failed) && i !in a.failed
  }

  /** The services before i have had their turn in this round. */
  function Turns(a: Allocation, services: seq<Service>, i: nat): (r: Allocation)
    requires i <= |services| == |a.workers| && services != [] && services[0].queueSize > 0
    ensures |r.workers| == |a.workers|
  {
    if i == 0 then a
    else if i == 1 then if Fits(a, services[0], 0) || 0 !in a.failed then TryOne(a, services, 0) else a
    else
      var before := Turns(a, services, i - 1);
      if Due(before, services, i - 1) then TryOne(before, services, i - 1) else before
  }

  function Round(a: Allocation, services: seq<Service>): (r: Allocation)
    requires |services| == |a.workers| && services != [] && services[0].queueSize > 0
    ensures |r.workers| == |a.workers|
  {
    Turns(a, services, |services|)
  }

  function Rounds(services: seq<Service>, cores: real, ram: int, k: nat): (r: Allocation)
    requires services != [] && services[0].queueSize > 0
    ensures |r.workers| == |services|
  {
    if k == 0 then Start(services, cores, ram) else Round(Rounds(services, cores, ram, k - 1), services)
  }

  // ---- Progress ------------------------------------------------------------------------------

  function SpareFrom(workers: seq<nat>): int {
    if workers == [] then 0 else MAX_WORKERS - workers[0] + SpareFrom(workers[1..])
  }

  lemma {:induction false} SpareUpdate(workers: seq<nat>, i: nat, n: nat)
    requires i < |workers|
    ensures SpareFrom(workers[i := n]) == SpareFrom(workers) + workers[i] - n
  {
    if i == 0 {
      assert workers[i := n][1..] == workers[1..];
    } else {
      SpareUpdate(workers[1..], i - 1, n);
      assert workers[i := n][1..] == workers[1..][i - 1 := n];
    }
  }

  lemma {:induction false} SpareBound(workers: seq<nat>)
    requires forall i | 0 <= i < |workers| :: workers[i] <= MAX_WORKERS
    ensures SpareFrom(workers) >= 0
  {
    if workers != [] { SpareBound(workers[1..]); }
  }

  ghost predicate Bounded(a: Allocation, services: seq<Service>) {
    && |a.workers| == |services|
    && (forall i | 0 <= i < |services| :: a.workers[i] <= MAX_WORKERS)
    && forall i | i in a.failed :: i < |services|
  }

  /** What is still to happen: workers that may be added, services that may fail. */
  function Left(a: Allocation): int {
    SpareFrom(a.workers) + |a.workers| - |a.failed|
  }

  lemma {:induction false} FailedFew(failed: set<nat>, n: nat)
    requires forall i | i in failed :: i < n
    ensures |failed| <= n
  {
    if n == 0 {
      assert forall i :: i !in failed;
    } else {
      FailedFew(failed - {n - 1}, n - 1);
      assert |failed| <= |failed - {n - 1}| + 1;
    }
  }

  lemma LeftIsNatural(a: Allocation, services: seq<Service>)
    requires Bounded(a, services)
    ensures Left(a) >= 0
  {
    SpareBound(a.workers);
    FailedFew(a.failed, |services|);
  }

  lemma TryOneProgress(a: Allocation, services: seq<Service>, i: nat)
    requires Bounded(a, services) && i < |services| && (Fits(a, services[i], i) || i !in a.failed)
    ensures Bounded(TryOne(a, services, i), services) && Left(TryOne(a, services, i)) < Left(a)
  {
    if Fits(a, services[i], i) { SpareUpdate(a.workers, i, a.workers[i] + 1); }
  }

  // ---- Capacity ------------------------------------------------------------------------------

  function CoresUsed(services: seq<Service>, workers: seq<nat>): real
    requires |services| == |workers|
  {
    if services == [] then 0.0 else services[0].cores * (workers[0] as real) + CoresUsed(services[1..], workers[1..])
  }

  function RamUsed(services: seq<Service>, workers: seq<nat>): int
    requires |services| == |workers|
  {
    if services == [] then 0 else services[0].ram * workers[0] + RamUsed(services[1..], workers[1..])
  }

  lemma {:induction false} UsedAdd(services: seq<Service>, workers: seq<nat>, i: nat)
    requires i < |services| == |workers|
    ensures var w := workers[i := workers[i] + 1];
            CoresUsed(services, w) == CoresUsed(services, workers) + services[i].cores
            && RamUsed(services, w) == RamUsed(services, workers) + services[i].ram
  {
    var w := workers[i := workers[i] + 1];
    if i == 0 {
      assert w[1..] == workers[1..];
      assert services[0].cores * ((workers[0] + 1) as real) == services[0].cores * (workers[0] as real) + services[0].cores;
      assert services[0].ram * (workers[0] + 1) == services[0].ram * workers[0] + services[0].ram;
    } else {
      UsedAdd(services[1..], workers[1..], i - 1);
      assert w[1..] == workers[1..][i - 1 := workers[i] + 1];
    }
  }

  lemma {:induction false} NothingUsed(services: seq<Service>)
    ensures CoresUsed(services, seq(|services|, i => 0)) == 0.0 && RamUsed(services, seq(|services|, i => 0)) == 0
  {
    if services != [] {
      NothingUsed(services[1..]);
      assert seq(|services|, i => 0)[1..] == seq(|services[1..]|, i => 0);
    }
  }

  /** The workers and what is left add up to the machine, and the left is not negative unless the
      machine was too small from the start. */
  ghost predicate WithinCapacity(a: Allocation, services: seq<Service>, cores: real, ram: int) {
    && |a.workers| == |services|
    && CoresUsed(services, a.workers) + a.cpu == cores - 0.1 && RamUsed(services, a.workers) + a.ram == ram - 256
    && (a.workers != seq(|services|, i => 0) ==> a.cpu >= 0.0 && a.ram >= 0)
  }

  // ---- Proportion ----------------------------------------------------------------------------

  /** Every service that has not failed has its share. */
  ghost predicate Proportional(a: Allocation, services: seq<Service>, upTo: nat)
    requires upTo <= |services| == |a.workers| && services != [] && services[0].queueSize > 0
  {
    0 !in a.failed ==> forall i | 0 < i < upTo && i !in a.failed :: a.workers[i] == Share(a, services, i)
  }

  /** Every service that failed is out of reach for good. */
  ghost predicate FailedStay(a: Allocation, services: seq<Service>) {
    |a.workers| == |services| && forall i | i in a.failed && i < |services| :: !Fits(a, services[i], i)
  }

  /** One more worker of the main service raises a share by one at most. */
  lemma ShareStep(q: nat, q0: nat, m: nat)
    requires q0 > 0 && q <= q0
    ensures q * m / q0 <= q * (m + 1) / q0 <= q * m / q0 + 1
  {
    var x, y := q * m, q * (m + 1);
    assert y == x + q;
    DivStep(x, q, q0);
  }

  lemma DivStep(x: nat, q: nat, q0: nat)
    requires q0 > 0 && q <= q0
    ensures x / q0 <= (x + q) / q0 <= x / q0 + 1
  {
    var d, r := x / q0, x % q0;
    assert x == d * q0 + r;
    if r + q < q0 {
      ModUnique(x + q, q0, d, r + q);
    } else {
      assert x + q == (d + 1) * q0 + (r + q - q0);
      ModUnique(x + q, q0, d + 1, r + q - q0);
    }
  }

  // ---- One turn ------------------------------------------------------------------------------

  ghost predicate Inv(a: Allocation, services: seq<Service>, cores: real, ram: int) {
    Bounded(a, services) && WithinCapacity(a, services, cores, ram) && FailedStay(a, services)
  }

  lemma TryOneKeeps(a: Allocation, services: seq<Service>, i: nat, cores: real, ram: int)
    requires Candidates(services) && Inv(a, services, cores, ram) && i < |services|
    ensures Inv(TryOne(a, services, i), services, cores, ram)
  {
    hide CoresUsed, RamUsed;
    var r := TryOne(a, services, i);
    if Fits(a, services[i], i) {
      UsedAdd(services, a.workers, i);
      forall j | j in r.failed && j < |services| ensures !Fits(r, services[j], j) {
        assert !Fits(a, services[j], j);
      }
    }
  }

  /** In the middle of a round a service may lag one worker behind its share. */
  ghost predicate Lagging(a: Allocation, services: seq<Service>, from': nat)
    requires |services| == |a.workers| && services != [] && services[0].queueSize > 0
  {
    0 !in a.failed ==> forall i | from' <= i < |services| && 0 < i && i !in a.failed ::
      Share(a, services, i) - 1 <= a.workers[i] <= Share(a, services, i)
  }

  lemma MainTurn(a: Allocation, services: seq<Service>)
    requires Candidates(services) && |a.workers| == |services| && Proportional(a, services, |services|)
    ensures Lagging(Turns(a, services, 1), services, 1)
  {
    var r := Turns(a, services, 1);
    if 0 !in r.failed {
      forall i | 1 <= i < |services| && i !in r.failed
        ensures Share(r, services, i) - 1 <= r.workers[i] <= Share(r, services, i)
      {
        ShareStep(services[i].queueSize, services[0].queueSize, a.workers[0]);
        assert a.workers[i] == Share(a, services, i);
      }
    }
  }

  lemma OtherTurn(a: Allocation, services: seq<Service>, i: nat)
    requires Candidates(services) && 0 < i < |services| == |a.workers| && Proportional(a, services, i) && Lagging(a, services, i)
    ensures var r := if Due(a, services, i) then TryOne(a, services, i) else a;
            Proportional(r, services, i + 1) && Lagging(r, services, i + 1)
  {
    var r := if Due(a, services, i) then TryOne(a, services, i) else a;
    assert r.workers[0] == a.workers[0];
    forall j | 0 < j < |services| ensures Share(r, services, j) == Share(a, services, j) {}
  }

  lemma {:induction false} TurnsKeep(a: Allocation, services: seq<Service>, i: nat, cores: real, ram: int)
    requires Candidates(services) && Inv(a, services, cores, ram) && 0 < i <= |services| && Proportional(a, services, |services|)
    ensures var r := Turns(a, services, i);
            Inv(r, services, cores, ram) && Proportional(r, services, i) && Lagging(r, services, i)
  {
    hide Lagging, Proportional;
    if i == 1 {
      MainTurn(a, services);
      TryOneKeeps(a, services, 0, cores, ram);
      assert Proportional(Turns(a, services, 1), services, 1) by { NothingBefore(Turns(a, services, 1), services); }
    } else {
      TurnsKeep(a, services, i - 1, cores, ram);
      var before := Turns(a, services, i - 1);
      OtherTurn(before, services, i - 1);
      TryOneKeeps(before, services, i - 1, cores, ram);
    }
  }

  lemma NothingBefore(a: Allocation, services: seq<Service>)
    requires |services| == |a.workers| && services != [] && services[0].queueSize > 0
    ensures Proportional(a, services, 1)
  {}

  lemma StartKeeps(services: seq<Service>, cores: real, ram: int)
    requires Candidates(services)
    ensures var a := Start(services, cores, ram); Inv(a, services, cores, ram) && Proportional(a, services, |services|)
  {
    NothingUsed(services);
    forall i | 0 < i < |services| ensures Share(Start(services, cores, ram), services, i) == 0 {}
  }

  // ---- Main results --------------------------------------------------------------------------

  /** After every round: what is allocated and what is left add up to the machine, never beyond it;
      no service has more than 50 workers; a service that failed does not fit any more; and as long
      as the busiest service has not failed, every other that has not has exactly
      floor(ratio * workers of the busiest). */
  lemma {:induction false} EveryRound(services: seq<Service>, cores: real, ram: int, k: nat)
    requires Candidates(services)
    ensures var a := Rounds(services, cores, ram, k);
            && Bounded(a, services) && WithinCapacity(a, services, cores, ram) && FailedStay(a, services)
            && Proportional(a, services, |services|)
  {
    hide WithinCapacity, FailedStay, Proportional;
    if k == 0 {
      StartKeeps(services, cores, ram);
    } else {
      EveryRound(services, cores, ram, k - 1);
      TurnsKeep(Rounds(services, cores, ram, k - 1), services, |services|, cores, ram);
    }
  }

  /** The machine is never overcommitted: the workers' cores and memory stay within what it has,
      less the reserve. */
  lemma NeverOvercommits(services: seq<Service>, cores: real, ram: int, k: nat)
    requires Candidates(services) && cores >= 0.1 && ram >= 256
    ensures var a := Rounds(services, cores, ram, k);
            CoresUsed(services, a.workers) <= cores - 0.1 && RamUsed(services, a.workers) <= ram - 256
  {
    EveryRound(services, cores, ram, k);
    NothingUsed(services);
  }

  /** Turns never add to what is left, and a turn that changes something takes from it. */
  lemma {:induction false} TurnsProgress(a: Allocation, services: seq<Service>, i: nat)
    requires Candidates(services) && Bounded(a, services) && i <= |services|
    ensures var r := Turns(a, services, i); Bounded(r, services) && Left(r) <= Left(a) && (r != a ==> Left(r) < Left(a))
  {
    hide Left;
    if i == 1 {
      if Fits(a, services[0], 0) || 0 !in a.failed { TryOneProgress(a, services, 0); }
    } else if i > 1 {
      TurnsProgress(a, services, i - 1);
      var before := Turns(a, services, i - 1);
      if Due(before, services, i - 1) { TryOneProgress(before, services, i - 1); }
    }
  }

  lemma {:induction false} TurnsStay(a: Allocation, services: seq<Service>, i: nat)
    requires Candidates(services) && Bounded(a, services) && i <= |services| && Turns(a, services, |services|) == a
    ensures Turns(a, services, i) == a
    decreases |services| - i
  {
    hide Left;
    if i < |services| {
      TurnsStay(a, services, i + 1);
      TurnsProgress(a, services, i);
      var before := Turns(a, services, i);
      assert Left(a) <= Left(before) by {
        if i > 0 && Due(before, services, i) { TryOneProgress(before, services, i); }
        if i == 0 { assert before == a; }
      }
    }
  }

  /** A round that changes nothing leaves no service that could take one more worker. */
  lemma FixedIsMaximal(services: seq<Service>, cores: real, ram: int, k: nat, i: nat)
    requires Candidates(services) && i < |services|
    requires var a := Rounds(services, cores, ram, k); Round(a, services) == a
    ensures var a := Rounds(services, cores, ram, k); i in a.failed && !Fits(a, services[i], i)
  {
    EveryRound(services, cores, ram, k);
    var a := Rounds(services, cores, ram, k);
    TurnsStay(a, services, 1);
    if Fits(a, services[0], 0) || 0 !in a.failed { TryOneProgress(a, services, 0); }
    assert 0 in a.failed;
    if i > 0 {
      TurnsStay(a, services, i);
      TurnsStay(a, services, i + 1);
      if Due(a, services, i) { TryOneProgress(a, services, i); }
    }
  }

  /** The loop: it ends, after `rounds` rounds, with nothing more to allocate. */
  method Allocate(services: seq<Service>, cores: real, ram: int) returns (a: Allocation, ghost rounds: nat)
    requires Candidates(services)
    ensures a == Rounds(services, cores, ram, rounds)
    ensures forall i | 0 <= i < |services| :: i in a.failed && !Fits(a, services[i], i)
    ensures WithinCapacity(a, services, cores, ram)
  {
    hide WithinCapacity, FailedStay, Proportional, Left;
    a, rounds := Start(services, cores, ram), 0;
    EveryRound(services, cores, ram, 0);
    var changed := true;
    while changed
      invariant a == Rounds(services, cores, ram, rounds) && Bounded(a, services)
      invariant !changed ==> Round(a, services) == a
      decreases Left(a), if changed then 1 else 0
    {
      ghost var before := a;
      LeftIsNatural(a, services);
      changed := false;
      if Fits(a, services[0], 0) || 0 !in a.failed {
        TryOneProgress(a, services, 0);
        a, changed := TryOne(a, services, 0), true;
      }
      for i := 1 to |services|
        invariant a == Turns(before, services, i) && Bounded(a, services)
        invariant Left(a) <= Left(before) && (changed <==> a != before) && (changed ==> Left(a) < Left(before))
      {
        if Due(a, services, i) {
          TryOneProgress(a, services, i);
          a, changed := TryOne(a, services, i), true;
        }
      }
      rounds := rounds + 1;
    }
    forall i | 0 <= i < |services| ensures i in a.failed && !Fits(a, services[i], i) {
      FixedIsMaximal(services, cores, ram, rounds, i);
    }
    EveryRound(services, cores, ram, rounds);
  }
}
