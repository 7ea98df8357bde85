/** The redis ExclusionWindow of al/common/remote_datatypes.py, as a machine. */
module ExclusionWindow {
  // The two scripts are atomic; clients interleave between them, a window expires by itself after
  // `seconds`, and a waiting client stops waiting when it gets a wake token or after `seconds`.

  import opened Prelude

  type Client = nat

  /** What a client does: outside, about to run the enter script, blocked on its wake queue since
      some time, inside with its window's deadline, or waking the clients it released. */
  datatype Phase = Outside | Trying | Blocked(since: int) | Inside(deadline: int) | Releasing(names: seq<Client>)

  /** The holder key with the time at which redis drops it. */
  datatype Holder = Holder(client: Client, deadline: int)

  datatype Window = Window(seconds: nat, now: int, holder: Option<Holder>, waiting: seq<Client>, tokens: map<Client, nat>,
                           phases: map<Client, Phase>)

  function PhaseOf(s: Window, c: Client): Phase { Get(s.phases, c, Outside) }

  function TokensOf(s: Window, c: Client): nat { Get(s.tokens, c, 0) }

  function Go(s: Window, c: Client, p: Phase): Window { s.(phases := s.phases[c := p]) }

  function Start(seconds: nat): Window { Window(seconds, 0, None, [], map[], map[]) }

  /** The holder key as redis sees it: an expired one is not there. */
  function Current(s: Window): Option<Holder> {
    if s.holder.Some? && s.now < s.holder.value.deadline then s.holder else None
  }

  // ---- The scripts ---------------------------------------------------------------------------

  /** e_enter_script: setnx and expire, or join the waiting list. */
  function EnterScript(s: Window, c: Client): (Window, bool) {
    if Current(s).None? then (s.(holder := Some(Holder(c, s.now + s.seconds))), true)
    else (s.(waiting := s.waiting + [c]), false)
  }

  /** e_exit_script: nothing unless the key still names the client; otherwise the key and the
      waiting list are deleted, the latter returned. */
  function ExitScript(s: Window, c: Client): (Window, seq<Client>) {
    if Current(s).None? || Current(s).value.client != c then (s, [])
    else (s.(holder := None, waiting := []), s.waiting)
  }

  // ---- Steps ---------------------------------------------------------------------------------

  datatype Event =
    | Begins(c: Client) | Tries(c: Client) | Wakes(c: Client) | GivesUp(c: Client)
    | Exits(c: Client, shuffled: seq<Client>) | Notifies(c: Client) | Passes(by': nat)

  /** None: the step is not possible. */
  function Step(s: Window, e: Event): Option<Window> {
    match e
    case Begins(c) => if PhaseOf(s, c).Outside? then Some(Go(s, c, Trying)) else None
    case Tries(c) =>
      if PhaseOf(s, c).Trying? then
        var (r, got) := EnterScript(s, c);
        Some(Go(r, c, if got then Inside(s.now + s.seconds) else Blocked(s.now)))
      else None
    case Wakes(c) =>
      if PhaseOf(s, c).Blocked? && TokensOf(s, c) > 0 then
        Some(Go(s.(tokens := s.tokens[c := TokensOf(s, c) - 1]), c, Trying))
      else None
    case GivesUp(c) =>
      if PhaseOf(s, c).Blocked? && TokensOf(s, c) == 0 && s.now >= PhaseOf(s, c).since + s.seconds then Some(Go(s, c, Trying)) else None
    case Exits(c, shuffled) =>
      var (r, names) := ExitScript(s, c);
      if PhaseOf(s, c).Inside? && multiset(shuffled) == multiset(names) then
        Some(Go(r, c, if names == [] then Outside else Releasing(shuffled)))
      else None
    case Notifies(c) =>
      var p := PhaseOf(s, c);
      if p.Releasing? && p.names != [] then
        var r := s.(tokens := s.tokens[p.names[0] := TokensOf(s, p.names[0]) + 1]);
        Some(Go(r, c, if |p.names| == 1 then Outside else Releasing(p.names[1..])))
      else None
    case Passes(by') => Some(s.(now := s.now + by'))
  }

  function Run(seconds: nat, events: seq<Event>): Option<Window> {
    if events == [] then Some(Start(seconds))
    else
      match Run(seconds, events[..|events| - 1])
      case None => None
      case Some(s) => Step(s, events[|events| - 1])
  }

  // ---- Invariant -----------------------------------------------------------------------------

  /** A client inside with time left is the holder. */
  ghost predicate Exclusive(s: Window, c: Client) {
    var p := PhaseOf(s, c);
    p.Inside? && s.now < p.deadline ==> s.holder == Some(Holder(c, p.deadline))
  }

  /** The holder is inside, with the deadline of the key. */
  ghost predicate HolderInside(s: Window) {
    Current(s).Some? ==> PhaseOf(s, Current(s).value.client) == Inside(Current(s).value.deadline)
  }

  predicate Announces(s: Window, r: Client, c: Client) {
    PhaseOf(s, r).Releasing? && c in PhaseOf(s, r).names
  }

  /** A blocked client is on the waiting list, on the list of a client that is waking others, or
      has a token. */
  ghost predicate Remembered(s: Window, c: Client) {
    PhaseOf(s, c).Blocked? ==> c in s.waiting || (exists r :: Announces(s, r, c)) || TokensOf(s, c) > 0
  }

  ghost predicate Inv(s: Window) {
    && (forall c :: Exclusive(s, c)) && HolderInside(s) && forall c :: Remembered(s, c)
  }

  lemma StepExclusive(s: Window, e: Event)
    requires Inv(s) && Step(s, e).Some?
    ensures var r := Step(s, e).value; HolderInside(r) && forall c :: Exclusive(r, c)
  {
    hide Remembered;
    var r := Step(s, e).value;
    forall c ensures Exclusive(r, c) { assert Exclusive(s, c); }
    match e
    case Passes(_) =>
    case _ => assert Exclusive(s, e.c);
  }

  lemma StepRemembered(s: Window, e: Event, c: Client)
    requires Inv(s) && Step(s, e).Some?
    ensures Remembered(Step(s, e).value, c)
  {
    var r := Step(s, e).value;
    assert Remembered(s, c);
    if PhaseOf(r, c).Blocked? && e != Tries(c) {
      if c in s.waiting {
        if c !in r.waiting { AllReleased(s, e, c); }
      } else if q :| Announces(s, q, c) {
        StillAnnounced(s, e, q, c);
      }
    }
  }

  lemma AllReleased(s: Window, e: Event, c: Client)
    requires Step(s, e).Some? && c in s.waiting && c !in Step(s, e).value.waiting
    ensures e.Exits? && Announces(Step(s, e).value, e.c, c)
  {
    assert e.Exits?;
    assert c in multiset(s.waiting);
    assert c in multiset(e.shuffled);
  }

  lemma StillAnnounced(s: Window, e: Event, q: Client, c: Client)
    requires Step(s, e).Some? && Announces(s, q, c)
    ensures Announces(Step(s, e).value, q, c) || TokensOf(Step(s, e).value, c) > 0
  {
    var names := PhaseOf(s, q).names;
    if e == Notifies(q) {
      assert names == [names[0]] + names[1..];
    } else {
      assert PhaseOf(Step(s, e).value, q) == PhaseOf(s, q);
    }
  }

  lemma {:induction false} RunInv(seconds: nat, events: seq<Event>)
    ensures Run(seconds, events).Some? ==> Inv(Run(seconds, events).value)
  {
    hide Step, Exclusive, HolderInside, Remembered;
    if events == [] {
      StartInv(seconds);
    } else {
      var e := events[|events| - 1];
      RunInv(seconds, events[..|events| - 1]);
      var before := Run(seconds, events[..|events| - 1]);
      if before.Some? && Step(before.value, e).Some? {
        StepExclusive(before.value, e);
        forall c ensures Remembered(Step(before.value, e).value, c) { StepRemembered(before.value, e, c); }
      }
    }
  }

  lemma StartInv(seconds: nat)
    ensures Inv(Start(seconds))
  {}

  // ---- Main results --------------------------------------------------------------------------

  /** Two clients inside with time left are one client. */
  lemma OneUnexpiredHolder(seconds: nat, events: seq<Event>, a: Client, b: Client)
    requires Run(seconds, events).Some?
    ensures var s := Run(seconds, events).value; var p, q := PhaseOf(s, a), PhaseOf(s, b);
            p.Inside? && q.Inside? && s.now < p.deadline && s.now < q.deadline ==> a == b
  {
    RunInv(seconds, events);
    var s := Run(seconds, events).value;
    assert Exclusive(s, a) && Exclusive(s, b);
  }

  /** The exit of a client whose window expired changes neither the key, whoever holds it by then,
      nor the waiting list; the exit of any other frees just its own window. */
  lemma ExitFreesOwnWindow(seconds: nat, events: seq<Event>, c: Client, shuffled: seq<Client>)
    requires Run(seconds, events).Some? && PhaseOf(Run(seconds, events).value, c).Inside?
    ensures var s := Run(seconds, events).value; var d := PhaseOf(s, c).deadline;
            && (s.now >= d ==> ExitScript(s, c) == (s, []))
            && (s.now < d ==> Current(s) == Some(Holder(c, d)) && Current(ExitScript(s, c).0).None? && ExitScript(s, c).1 == s.waiting)
  {
    RunInv(seconds, events);
    assert Exclusive(Run(seconds, events).value, c);
  }

  /** No wake-up is lost: a client that is still blocked will be found by the next release, by a
      release under way, or has a token to pop. */
  lemma NoLostWakeup(seconds: nat, events: seq<Event>, c: Client)
    requires Run(seconds, events).Some? && PhaseOf(Run(seconds, events).value, c).Blocked?
    ensures var s := Run(seconds, events).value;
            c in s.waiting || (exists r :: Announces(s, r, c)) || Step(s, Wakes(c)).Some?
  {
    RunInv(seconds, events);
    assert Remembered(Run(seconds, events).value, c);
  }

  /** Once nobody inside has time left, a client that tries gets the window: an expired window, or
      one never released, blocks nobody. */
  lemma FreeWindowIsTaken(seconds: nat, events: seq<Event>, c: Client)
    requires Run(seconds, events).Some?
    requires var s := Run(seconds, events).value;
             PhaseOf(s, c).Trying? && forall b :: PhaseOf(s, b).Inside? ==> s.now >= PhaseOf(s, b).deadline
    ensures var s := Run(seconds, events).value; EnterScript(s, c).1
  {
    RunInv(seconds, events);
  }
}

module ExclusionWindowObject {
  import opened Prelude
  import W = ExclusionWindow

  /** The keys in redis behind one window name. */
  class WindowKeys {
    const seconds: nat
    var now: int
    var holder: Option<W.Holder>
    var waiting: seq<W.Client>
    var tokens: map<W.Client, nat>

    constructor (seconds: nat)
      ensures this.seconds == seconds && now == 0 && holder == None && waiting == [] && tokens == map[]
    {
      this.seconds, now, holder, waiting, tokens := seconds, 0, None, [], map[];
    }

    /** These keys with the given clients around them. */
    function Abs(phases: map<W.Client, W.Phase>): W.Window
      reads this
    {
      W.Window(seconds, now, holder, waiting, tokens, phases)
    }

    method Enter(c: W.Client, ghost phases: map<W.Client, W.Phase>) returns (got: bool)
      modifies `holder, `waiting
      ensures (Abs(phases), got) == W.EnterScript(old(Abs(phases)), c)
    {
      if holder.Some? && holder.value.deadline <= now { holder := None; }
      if holder.None? {
        holder := Some(W.Holder(c, now + seconds));
        return true;
      }
      waiting := waiting + [c];
      got := false;
    }

    method Exit(c: W.Client, ghost phases: map<W.Client, W.Phase>) returns (names: seq<W.Client>)
      modifies `holder, `waiting
      ensures (Abs(phases), names) == W.ExitScript(old(Abs(phases)), c)
    {
      if holder.None? || holder.value.deadline <= now || holder.value.client != c { return []; }
      names := waiting;
      holder, waiting := None, [];
    }

    /** The releasing half of __exit__: a token for every name, in the shuffled order. */
    method Release(names: seq<W.Client>)
      modifies `tokens
      ensures forall c :: Get(tokens, c, 0) == Get(old(tokens), c, 0) + multiset(names)[c]
    {
      assert names[..|names|] == names;
      for i := 0 to |names|
        invariant forall c :: Get(tokens, c, 0) == Get(old(tokens), c, 0) + multiset(names[..i])[c]
      {
        assert names[..i + 1] == names[..i] + [names[i]];
        tokens := tokens[names[i] := Get(tokens, names[i], 0) + 1];
      }
    }
  }
}
