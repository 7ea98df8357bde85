/** How the timeout loops, which scan a table they also append to, relate to the model. */
module DispatchScan {
  // The loops take a list out of its table, leave an empty one in its place, and put the unexpired rest
  // back in front when they are done.  Meanwhile the same table may be appended to.  Here that is related
  // to firing timeouts off the front of the list one by one: the state seen by the model is the object's
  // state with the rest of the list still in place.

  import opened Prelude
  import opened DispatchModel
  import opened DispatchInvariant
  import opened DispatchSend
  import opened DispatchUpdate
  import opened DispatchEvents
  import opened DispatchTimeouts
  import opened DispatchSweep

  /** The table with `p` in front of one of its lists. */
  function Prefixed<D>(t: Table<D>, k: real, p: seq<Timeout<D>>): Table<D>
    requires k in t
  {
    t[k := p + t[k]]
  }

  /** The state with the part `p` of the list that is being scanned back in place. */
  function Virtual(s: State, ack: bool, k: real, p: seq<Timeout<Name>>): State
    requires k in TableOf(s, ack)
  {
    WithTable(s, ack, Prefixed(TableOf(s, ack), k, p))
  }

  lemma SetAside(s: State, ack: bool, k: real)
    requires k in TableOf(s, ack)
    ensures var v := TableOf(s, ack)[k];
            Virtual(WithTable(s, ack, TableOf(s, ack)[k := []]), ack, k, v) == s
  {
    assert TableOf(s, ack)[k] + [] == TableOf(s, ack)[k];
  }

  lemma PrefixedArm<D>(t: Table<D>, k: real, p: seq<Timeout<D>>, k1: real, x: Timeout<D>)
    requires k in t
    ensures k in Arm(t, k1, x) && Arm(Prefixed(t, k, p), k1, x) == Prefixed(Arm(t, k1, x), k, p)
  {
    if k1 == k { assert (p + t[k]) + [x] == p + (t[k] + [x]); }
  }

  lemma EffectVirtual(s: State, ack: bool, k: real, p: seq<Timeout<Name>>, sid: Sid, srl: Srl, born: nat, name: Name, out: Outcome, now: real)
    requires k in TableOf(s, ack)
    ensures k in TableOf(Effect(s, sid, srl, born, name, out, now), ack)
    ensures Effect(Virtual(s, ack, k, p), sid, srl, born, name, out, now)
         == Virtual(Effect(s, sid, srl, born, name, out, now), ack, k, p)
  {
    if out.Requested? && ack {
      PrefixedArm(s.ackT, k, p, out.seconds, Timeout(sid, srl, name, now + out.seconds));
    }
  }

  /** Sending does not look at the timeout tables, and appends to them only. */
  lemma DispatchVirtual(cfg: Config, s: State, ack: bool, k: real, p: seq<Timeout<Name>>, sid: Sid, srl: Srl, name: Name, now: real, o: Oracle)
    requires k in TableOf(s, ack) && Has(s, sid, srl) && sid in s.completed && name in cfg.services
    ensures k in TableOf(Dispatch(cfg, s, sid, srl, name, now, o), ack)
    ensures Dispatch(cfg, Virtual(s, ack, k, p), sid, srl, name, now, o)
         == Virtual(Dispatch(cfg, s, sid, srl, name, now, o), ack, k, p)
  {
    var v := Virtual(s, ack, k, p);
    assert Decide(cfg, v, sid, srl, name, o) == Decide(cfg, s, sid, srl, name, o);
    assert Tried(v, sid, srl, name) == Virtual(Tried(s, sid, srl, name), ack, k, p);
    EffectVirtual(Tried(s, sid, srl, name), ack, k, p, sid, srl, At(s, sid, srl).born, name, Decide(cfg, s, sid, srl, name, o), now);
  }

  /** What the loop body does with timeout `t`, whose list it has taken out of the table. */
  function Refire(cfg: Config, s: State, ack: bool, k: real, t: Timeout<Name>, now: real, o: Oracle): State
    requires cfg.Valid() && t.data in cfg.services && k in TableOf(s, ack)
    requires t.sid in s.entries ==> Ready(cfg, s, t.sid)
  {
    if Resend(cfg, s, ack, t.sid, t.srl, t.data) then
      var s1 := Dispatch(cfg, s, t.sid, t.srl, t.data, now, o);
      WithTable(s1, ack, Arm(TableOf(s1, ack), k, Timeout(t.sid, t.srl, t.data, now + k)))
    else s
  }

  lemma RefireKey(cfg: Config, s: State, ack: bool, k: real, t: Timeout<Name>, now: real, o: Oracle)
    requires cfg.Valid() && t.data in cfg.services && k in TableOf(s, ack)
    requires t.sid in s.entries ==> Ready(cfg, s, t.sid)
    ensures k in TableOf(Refire(cfg, s, ack, k, t, now, o), ack)
  {
    if Resend(cfg, s, ack, t.sid, t.srl, t.data) {
      DispatchVirtual(cfg, s, ack, k, [], t.sid, t.srl, t.data, now, o);
    }
  }

  lemma PrefixedRest<D>(t: Table<D>, k: real, p: seq<Timeout<D>>)
    requires k in t && p != []
    ensures Prefixed(t, k, p)[k] != [] && Prefixed(t, k, p)[k][0] == p[0]
    ensures Rest(Prefixed(t, k, p), k) == Prefixed(t, k, p[1..])
  {
    assert (p + t[k])[1..] == p[1..] + t[k];
  }

  lemma VirtualReady(cfg: Config, s: State, ack: bool, k: real, p: seq<Timeout<Name>>, sid: Sid)
    requires k in TableOf(s, ack) && Inv(cfg, Virtual(s, ack, k, p), NoFocus) && sid in s.entries
    ensures Ready(cfg, s, sid)
  {
    InvReady(cfg, Virtual(s, ack, k, p), NoFocus, sid);
    hide Inv, Linked, Shaped;
  }

  lemma SameResend(cfg: Config, s: State, v: State, ack: bool, t: Timeout<Name>)
    requires cfg.Valid() && t.data in cfg.services && v.entries == s.entries
    requires (t.sid in s.entries ==> Ready(cfg, s, t.sid)) && (t.sid in v.entries ==> Ready(cfg, v, t.sid))
    ensures Resend(cfg, v, ack, t.sid, t.srl, t.data) == Resend(cfg, s, ack, t.sid, t.srl, t.data)
    ensures Resend(cfg, s, ack, t.sid, t.srl, t.data) ==> Has(s, t.sid, t.srl)
  {
    hide Ready;
  }

  lemma ResentVirtual(cfg: Config, s: State, ack: bool, k: real, p: seq<Timeout<Name>>, t: Timeout<Name>, now: real, o: Oracle)
    requires k in TableOf(s, ack) && Has(s, t.sid, t.srl) && t.sid in s.completed && t.data in cfg.services
    ensures var s1, x := Dispatch(cfg, s, t.sid, t.srl, t.data, now, o), Timeout(t.sid, t.srl, t.data, now + k);
            var v1 := Dispatch(cfg, Virtual(s, ack, k, p), t.sid, t.srl, t.data, now, o);
            && k in TableOf(WithTable(s1, ack, Arm(TableOf(s1, ack), k, x)), ack)
            && WithTable(v1, ack, Arm(TableOf(v1, ack), k, x)) == Virtual(WithTable(s1, ack, Arm(TableOf(s1, ack), k, x)), ack, k, p)
  {
    hide Dispatch;
    DispatchVirtual(cfg, s, ack, k, p, t.sid, t.srl, t.data, now, o);
    PrefixedArm(TableOf(Dispatch(cfg, s, t.sid, t.srl, t.data, now, o), ack), k, p, k, Timeout(t.sid, t.srl, t.data, now + k));
  }

  /** One turn of the loop body fires the front of the list. */
  lemma FireVirtual(cfg: Config, s: State, ack: bool, k: real, p: seq<Timeout<Name>>, now: real, o: Oracle)
    requires cfg.Valid() && k in TableOf(s, ack) && p != []
    requires Inv(cfg, Virtual(s, ack, k, p), NoFocus)
    ensures var v := Virtual(s, ack, k, p);
            k in TableOf(v, ack) && TableOf(v, ack)[k] != [] && p[0].data in cfg.services
    ensures p[0].sid in s.entries ==> Ready(cfg, s, p[0].sid)
    ensures var s' := Refire(cfg, s, ack, k, p[0], now, o);
            k in TableOf(s', ack) && Fire(cfg, Virtual(s, ack, k, p), ack, k, now, o) == Virtual(s', ack, k, p[1..])
  {
    hide Inv, Dispatch, Ready, Resend, Arm, Awaited;
    var v := Virtual(s, ack, k, p);
    var t := p[0];
    PrefixedRest(TableOf(s, ack), k, p);
    HeadKnown(cfg, v, ack, k);
    if t.sid in s.entries {
      VirtualReady(cfg, s, ack, k, p, t.sid);
      InvReady(cfg, v, NoFocus, t.sid);
      SameReady(cfg, v, ack, Rest(TableOf(v, ack), k), t.sid);
    }
    RefireKey(cfg, s, ack, k, t, now, o);
    var v1 := WithTable(v, ack, Rest(TableOf(v, ack), k));
    assert v1 == Virtual(s, ack, k, p[1..]);
    SameResend(cfg, s, v1, ack, t);
    if Resend(cfg, s, ack, t.sid, t.srl, t.data) {
      InvSlot(cfg, v, NoFocus, t.sid);
      ResentVirtual(cfg, s, ack, k, p[1..], t, now, o);
    }
  }

  lemma VirtualAt(s: State, ack: bool, k: real, p: seq<Timeout<Name>>)
    requires k in TableOf(s, ack)
    ensures var v := Virtual(s, ack, k, p);
            k in TableOf(v, ack) && |p| <= |TableOf(v, ack)[k]| && v.clock == s.clock
  {}

  /** The loop is on its way to `goal`: firing what is expired of the rest `p` leads there. */
  ghost predicate Scanning(cfg: Config, s: State, ack: bool, k: real, p: seq<Timeout<Name>>, now: real, o: Oracle, goal: State) {
    && cfg.Valid() && k in TableOf(s, ack) && s.clock == now
    && Inv(cfg, Virtual(s, ack, k, p), NoFocus)
    && k in TableOf(Virtual(s, ack, k, p), ack) && |p| <= |TableOf(Virtual(s, ack, k, p), ack)[k]|
    && Scan(cfg, Virtual(s, ack, k, p), ack, k, Expired(p, now), now, o) == goal
  }

  lemma ScanTurn(cfg: Config, s: State, ack: bool, k: real, p: seq<Timeout<Name>>, now: real, o: Oracle, goal: State)
    requires Scanning(cfg, s, ack, k, p, now, o, goal) && p != [] && p[0].time < now
    ensures p[0].data in cfg.services && k in TableOf(s, ack)
    ensures p[0].sid in s.entries ==> Ready(cfg, s, p[0].sid)
    ensures Scanning(cfg, Refire(cfg, s, ack, k, p[0], now, o), ack, k, p[1..], now, o, goal)
  {
    hide Inv, Fire, Refire, Virtual, Ready, Fresh;
    var v := Virtual(s, ack, k, p);
    VirtualAt(s, ack, k, p);
    FireVirtual(cfg, s, ack, k, p, now, o);
    FireKeeps(cfg, v, ack, k, now, o);
    VirtualAt(Refire(cfg, s, ack, k, p[0], now, o), ack, k, p[1..]);
    assert Expired(p, now) == 1 + Expired(p[1..], now);
  }

  lemma ScanStart(cfg: Config, s: State, ack: bool, k: real, now: real, o: Oracle)
    requires Inv(cfg, s, NoFocus) && cfg.Valid() && now == s.clock && k in TableOf(s, ack)
    ensures var v := TableOf(s, ack)[k];
            Scanning(cfg, WithTable(s, ack, TableOf(s, ack)[k := []]), ack, k, v, now, o,
                     Scan(cfg, s, ack, k, Expired(v, now), now, o))
  {
    hide Inv, Virtual;
    var v := TableOf(s, ack)[k];
    SetAside(s, ack, k);
    VirtualAt(WithTable(s, ack, TableOf(s, ack)[k := []]), ack, k, v);
  }

  /** Putting the unexpired rest back completes the scan. */
  lemma ScanEnd(cfg: Config, s: State, ack: bool, k: real, p: seq<Timeout<Name>>, now: real, o: Oracle, goal: State)
    requires Scanning(cfg, s, ack, k, p, now, o, goal) && (p == [] || p[0].time >= now)
    ensures k in TableOf(s, ack)
    ensures WithTable(s, ack, TableOf(s, ack)[k := p + TableOf(s, ack)[k]]) == goal
  {}

  // ---- Child timeouts ------------------------------------------------------------------------

  /** Moving entries on does not look at the child timeouts, nor change them. */
  lemma {:induction false} UpdateIgnores(cfg: Config, s: State, sid: Sid, srl: Srl, now: real, o: Oracle, c: Table<Srl>)
    requires Ready(cfg, s, sid) && srl in s.entries[sid] && o.Valid()
    ensures Ready(cfg, s.(childT := c), sid)
    ensures Update(cfg, s.(childT := c), sid, srl, now, o) == Update(cfg, s, sid, srl, now, o).(childT := c)
    decreases |s.entries[sid]|, 1
  {
    var e := At(s, sid, srl);
    assert |e.dispatched| == |e.outstanding| == cfg.Done() + 1 && e.stage <= cfg.Done();
    hide Linked, Shaped, Finish, KidDone, DispatchAll, Remove, NextStage;
    var stage := NextStage(cfg, e, e.stage);
    PutIgnores(s, sid, srl, e.(stage := stage), c);
    if stage == cfg.Done() {
      hide Put;
      if e.outstandingKids == {} && e.extracted == {} {
        ReadyStage(cfg, s, sid, srl, stage);
        RemoveIgnores(cfg, Put(s, sid, srl, e.(stage := stage)), sid, srl, now, o, c);
      }
    } else if e.dispatched[stage] == {} {
      var todo := e.outstanding[stage];
      var e1 := e.(stage := stage, dispatched := e.dispatched[stage := todo], outstanding := e.outstanding[stage := {}]);
      AllKnown(cfg, s, sid, srl, stage, o);
      PutIgnores(s, sid, srl, e1, c);
      DispatchAllIgnores(cfg, Put(s, sid, srl, e1), sid, srl, o.order(todo), now, o, c);
      hide Put;
    }
  }

  lemma ReadyStage(cfg: Config, s: State, sid: Sid, srl: Srl, stage: nat)
    requires Ready(cfg, s, sid) && srl in s.entries[sid] && stage <= cfg.Done()
    ensures Ready(cfg, Put(s, sid, srl, At(s, sid, srl).(stage := stage)), sid)
    ensures |Put(s, sid, srl, At(s, sid, srl).(stage := stage)).entries[sid]| == |s.entries[sid]|
  {
    ReadyPut(cfg, s, sid, srl, At(s, sid, srl).(stage := stage));
  }

  lemma AllKnown(cfg: Config, s: State, sid: Sid, srl: Srl, stage: nat, o: Oracle)
    requires Ready(cfg, s, sid) && srl in s.entries[sid] && stage <= cfg.Done() && o.Valid()
    ensures |At(s, sid, srl).outstanding| == |At(s, sid, srl).dispatched| == cfg.Done() + 1
    ensures forall n | n in o.order(At(s, sid, srl).outstanding[stage]) :: n in cfg.services
  {
    assert Shaped(cfg, s.entries[sid][srl]);
  }

  lemma DispatchIgnores(cfg: Config, s: State, sid: Sid, srl: Srl, name: Name, now: real, o: Oracle, c: Table<Srl>)
    requires Has(s, sid, srl) && sid in s.completed && name in cfg.services
    ensures Dispatch(cfg, s.(childT := c), sid, srl, name, now, o) == Dispatch(cfg, s, sid, srl, name, now, o).(childT := c)
  {
    assert Decide(cfg, s.(childT := c), sid, srl, name, o) == Decide(cfg, s, sid, srl, name, o);
    hide Decide;
    assert Tried(s.(childT := c), sid, srl, name) == Tried(s, sid, srl, name).(childT := c);
    hide Tried;
    EffectIgnores(Tried(s, sid, srl, name), sid, srl, At(s, sid, srl).born, name, Decide(cfg, s, sid, srl, name, o), now, c);
  }

  lemma EffectIgnores(s: State, sid: Sid, srl: Srl, born: nat, name: Name, out: Outcome, now: real, c: Table<Srl>)
    ensures Effect(s.(childT := c), sid, srl, born, name, out, now) == Effect(s, sid, srl, born, name, out, now).(childT := c)
  {}

  lemma {:induction false} DispatchAllIgnores(cfg: Config, s: State, sid: Sid, srl: Srl, names: seq<Name>, now: real, o: Oracle, c: Table<Srl>)
    requires Has(s, sid, srl) && sid in s.completed
    requires forall n | n in names :: n in cfg.services
    ensures DispatchAll(cfg, s.(childT := c), sid, srl, names, now, o) == DispatchAll(cfg, s, sid, srl, names, now, o).(childT := c)
    decreases |names|
  {
    hide Dispatch;
    if names != [] {
      DispatchIgnores(cfg, s, sid, srl, names[0], now, o, c);
      DispatchAllIgnores(cfg, Dispatch(cfg, s, sid, srl, names[0], now, o), sid, srl, names[1..], now, o, c);
    }
  }

  lemma {:induction false} RemoveIgnores(cfg: Config, s: State, sid: Sid, srl: Srl, now: real, o: Oracle, c: Table<Srl>)
    requires Ready(cfg, s, sid) && srl in s.entries[sid] && o.Valid()
    requires At(s, sid, srl).outstandingKids == {}
    ensures Ready(cfg, s.(childT := c), sid)
    ensures Remove(cfg, s.(childT := c), sid, srl, now, o) == Remove(cfg, s, sid, srl, now, o).(childT := c)
    decreases |s.entries[sid]|, 0
  {
    hide Update, Remove, Linked, Shaped, Told, Closed, Leaving;
    ReadyLeaves(cfg, s, sid, srl);
    ToldIgnores(s, sid, srl, c);
    if At(s, sid, srl).parent.Some? {
      WithoutLinked(s.entries[sid], srl);
      RemoveChild(cfg, s, sid, srl, now, o);
      RemoveChild(cfg, s.(childT := c), sid, srl, now, o);
      UpdateIgnores(cfg, Told(s, sid, srl), sid, At(s, sid, srl).parent.value, now, o, c);
    } else {
      RemoveRoot(cfg, s, sid, srl, now, o);
      RemoveRoot(cfg, s.(childT := c), sid, srl, now, o);
      ClosedIgnores(s, sid, srl, Complete(sid, Told(s, sid, srl).score[sid].GetOr(0)), c);
    }
  }

  lemma ReadyLeaves(cfg: Config, s: State, sid: Sid, srl: Srl)
    requires Ready(cfg, s, sid) && srl in s.entries[sid] && At(s, sid, srl).outstandingKids == {}
    ensures Leaving(s, sid, srl)
  {
    hide Shaped;
    assert Up(s.entries[sid], srl);
  }

  lemma ToldIgnores(s: State, sid: Sid, srl: Srl, c: Table<Srl>)
    requires Leaving(s, sid, srl)
    ensures Leaving(s.(childT := c), sid, srl) && Told(s.(childT := c), sid, srl) == Told(s, sid, srl).(childT := c)
  {
    FinishIgnores(s, sid, srl, c);
    if At(s, sid, srl).parent.Some? {
      var p := At(s, sid, srl).parent.value;
      var s1 := Finish(s, sid, srl);
      assert Has(s1, sid, p);
      hide Finish, KidDone;
      PutIgnores(s1, sid, p, KidDone(At(s1, sid, p), srl), c);
    }
  }

  lemma FinishIgnores(s: State, sid: Sid, srl: Srl, c: Table<Srl>)
    requires Has(s, sid, srl) && sid in s.completed && sid in s.score
    ensures Finish(s.(childT := c), sid, srl) == Finish(s, sid, srl).(childT := c)
  {}

  lemma PutTwice(s: State, sid: Sid, srl: Srl, e: Entry, e1: Entry)
    requires sid in s.entries
    ensures sid in Put(s, sid, srl, e).entries && Put(Put(s, sid, srl, e), sid, srl, e1) == Put(s, sid, srl, e1)
  {
    assert Put(Put(s, sid, srl, e), sid, srl, e1).entries[sid] == s.entries[sid][srl := e1];
  }

  lemma PutIgnores(s: State, sid: Sid, srl: Srl, e: Entry, c: Table<Srl>)
    requires sid in s.entries
    ensures Put(s.(childT := c), sid, srl, e) == Put(s, sid, srl, e).(childT := c)
  {}

  lemma ClosedIgnores(s: State, sid: Sid, srl: Srl, m: StorageMsg, c: Table<Srl>)
    requires Leaving(s, sid, srl) && sid in s.results && sid in s.errors && sid in s.log && sid in s.asked && sid in s.asked
    requires Leaving(s.(childT := c), sid, srl) && Told(s.(childT := c), sid, srl) == Told(s, sid, srl).(childT := c)
    ensures Closed(s.(childT := c), sid, srl, m) == Closed(s, sid, srl, m).(childT := c)
  {
    hide Told, Leaving;
    ToldFrame(s, sid, srl);
  }

  /** The state with the part `p` of the child timeouts that is being scanned back in place. */
  function VirtualChild(s: State, k: real, p: seq<Timeout<Srl>>): State
    requires k in s.childT
  {
    s.(childT := Prefixed(s.childT, k, p))
  }

  /** What the loop body does with child timeout `t`, whose list it has taken out of the table. */
  function RefireChild(cfg: Config, s: State, t: Timeout<Srl>, now: real, o: Oracle): State
    requires t.sid in s.entries ==> Ready(cfg, s, t.sid)
    requires o.Valid()
  {
    if Has(s, t.sid, t.srl) then
      var e := At(s, t.sid, t.srl);
      var e1 := e.(extracted := e.extracted - {t.data});
      ReadyForget(cfg, s, t);
      Update(cfg, Put(s, t.sid, t.srl, e1), t.sid, t.srl, now, o)
    else s
  }

  lemma ReadyForget(cfg: Config, s: State, t: Timeout<Srl>)
    requires t.sid in s.entries && Ready(cfg, s, t.sid) && Has(s, t.sid, t.srl)
    ensures var e := At(s, t.sid, t.srl); Ready(cfg, Put(s, t.sid, t.srl, e.(extracted := e.extracted - {t.data})), t.sid)
  {
    var e := At(s, t.sid, t.srl);
    assert Shaped(cfg, s.entries[t.sid][t.srl]);
    ReadyPut(cfg, s, t.sid, t.srl, e.(extracted := e.extracted - {t.data}));
  }

  lemma VirtualChildReady(cfg: Config, s: State, k: real, p: seq<Timeout<Srl>>, sid: Sid)
    requires k in s.childT && Inv(cfg, VirtualChild(s, k, p), NoFocus) && sid in s.entries
    ensures Ready(cfg, s, sid)
  {
    InvReady(cfg, VirtualChild(s, k, p), NoFocus, sid);
    hide Inv, Linked, Shaped;
  }

  lemma ForgottenVirtual(s: State, k: real, p: seq<Timeout<Srl>>)
    requires k in s.childT && p != [] && Has(s, p[0].sid, p[0].srl)
    ensures var v, t := VirtualChild(s, k, p), p[0];
            && k in v.childT && v.childT[k] != []
            && Forgotten(v, k)
               == Put(s, t.sid, t.srl, At(s, t.sid, t.srl).(extracted := At(s, t.sid, t.srl).extracted - {t.data}))
                  .(childT := Prefixed(s.childT, k, p[1..]))
  {
    PrefixedRest(s.childT, k, p);
    hide Rest;
  }

  /** The list taken out of the table, and the part put back, do not matter to the entries. */
  lemma VirtualChildSame(s: State, k: real, p: seq<Timeout<Srl>>)
    requires k in s.childT && p != []
    ensures var v := VirtualChild(s, k, p);
            && v.entries == s.entries && v.clock == s.clock && k in v.childT && v.childT[k] != [] && v.childT[k][0] == p[0]
  {}

  lemma ForgottenAbsent(s: State, k: real, p: seq<Timeout<Srl>>)
    requires k in s.childT && p != [] && !Has(s, p[0].sid, p[0].srl)
    ensures var v := VirtualChild(s, k, p);
            k in v.childT && v.childT[k] != [] && Forgotten(v, k) == VirtualChild(s, k, p[1..])
  {
    PrefixedRest(s.childT, k, p);
    hide Rest;
  }

  /** One turn of the child loop's body fires the front of the list. */
  lemma FireChildVirtual(cfg: Config, s: State, k: real, p: seq<Timeout<Srl>>, now: real, o: Oracle)
    requires cfg.Valid() && o.Valid() && k in s.childT && p != [] && now == s.clock
    requires Inv(cfg, VirtualChild(s, k, p), NoFocus)
    ensures var v := VirtualChild(s, k, p); k in v.childT && v.childT[k] != []
    ensures p[0].sid in s.entries ==> Ready(cfg, s, p[0].sid)
    ensures var s' := RefireChild(cfg, s, p[0], now, o);
            s'.childT == s.childT && FireChild(cfg, VirtualChild(s, k, p), k, now, o) == VirtualChild(s', k, p[1..])
  {
    hide Inv, Ready, Update, Fresh, VirtualChild, Forgotten, Put, Prefixed;
    var v, t := VirtualChild(s, k, p), p[0];
    VirtualChildSame(s, k, p);
    if t.sid in s.entries { VirtualChildReady(cfg, s, k, p, t.sid); }
    if Has(s, t.sid, t.srl) {
      FireChildHeld(cfg, s, k, p, now, o);
    } else {
      ForgottenAbsent(s, k, p);
    }
  }

  lemma FireChildHeld(cfg: Config, s: State, k: real, p: seq<Timeout<Srl>>, now: real, o: Oracle)
    requires cfg.Valid() && o.Valid() && k in s.childT && p != [] && now == s.clock && Has(s, p[0].sid, p[0].srl)
    requires Inv(cfg, VirtualChild(s, k, p), NoFocus) && Ready(cfg, s, p[0].sid)
    ensures var v := VirtualChild(s, k, p); k in v.childT && v.childT[k] != []
    ensures var s' := RefireChild(cfg, s, p[0], now, o);
            s'.childT == s.childT && FireChild(cfg, VirtualChild(s, k, p), k, now, o) == VirtualChild(s', k, p[1..])
  {
    VirtualChildSame(s, k, p);
    hide Inv, Ready, Update, Fresh, Forgotten, Put, Prefixed, Forgetter;
    var v, t := VirtualChild(s, k, p), p[0];
    var e := At(s, t.sid, t.srl);
    var s1 := Put(s, t.sid, t.srl, e.(extracted := e.extracted - {t.data}));
    ReadyForget(cfg, s, t);
    ForgottenVirtual(s, k, p);
    ForgottenKeeps(cfg, v, k);
    PutSame(s, t.sid, t.srl, e.(extracted := e.extracted - {t.data}));
    PutAt(s, t.sid, t.srl, e.(extracted := e.extracted - {t.data}), t.sid, t.srl);
    UpdateMoves(cfg, s1, t.sid, t.srl, now, o);
    UpdateIgnores(cfg, s1, t.sid, t.srl, now, o, Prefixed(s.childT, k, p[1..]));
  }

  ghost predicate ScanningChild(cfg: Config, s: State, k: real, p: seq<Timeout<Srl>>, now: real, o: Oracle, goal: State) {
    && cfg.Valid() && o.Valid() && k in s.childT && s.clock == now
    && Inv(cfg, VirtualChild(s, k, p), NoFocus)
    && k in VirtualChild(s, k, p).childT && |p| <= |VirtualChild(s, k, p).childT[k]|
    && ScanChildren(cfg, VirtualChild(s, k, p), k, Expired(p, now), now, o) == goal
  }

  lemma VirtualChildAt(s: State, k: real, p: seq<Timeout<Srl>>)
    requires k in s.childT
    ensures var v := VirtualChild(s, k, p);
            k in v.childT && |p| <= |v.childT[k]| && v.clock == s.clock
  {}

  lemma ScanChildTurn(cfg: Config, s: State, k: real, p: seq<Timeout<Srl>>, now: real, o: Oracle, goal: State)
    requires ScanningChild(cfg, s, k, p, now, o, goal) && p != [] && p[0].time < now
    ensures o.Valid() && (p[0].sid in s.entries ==> Ready(cfg, s, p[0].sid))
    ensures ScanningChild(cfg, RefireChild(cfg, s, p[0], now, o), k, p[1..], now, o, goal)
  {
    hide Inv, FireChild, RefireChild, VirtualChild, Ready, Fresh, Rest;
    var v := VirtualChild(s, k, p);
    VirtualChildAt(s, k, p);
    FireChildVirtual(cfg, s, k, p, now, o);
    FireChildKeeps(cfg, v, k, now, o);
    VirtualChildAt(RefireChild(cfg, s, p[0], now, o), k, p[1..]);
    assert Expired(p, now) == 1 + Expired(p[1..], now);
  }

  lemma ScanChildStart(cfg: Config, s: State, k: real, now: real, o: Oracle)
    requires Inv(cfg, s, NoFocus) && cfg.Valid() && o.Valid() && now == s.clock && k in s.childT
    ensures ScanningChild(cfg, s.(childT := s.childT[k := []]), k, s.childT[k], now, o,
                          ScanChildren(cfg, s, k, Expired(s.childT[k], now), now, o))
  {
    assert s.childT[k] + [] == s.childT[k];
    assert VirtualChild(s.(childT := s.childT[k := []]), k, s.childT[k]) == s;
    hide Inv, VirtualChild;
    VirtualChildAt(s.(childT := s.childT[k := []]), k, s.childT[k]);
  }

  lemma ScanChildEnd(cfg: Config, s: State, k: real, p: seq<Timeout<Srl>>, now: real, o: Oracle, goal: State)
    requires ScanningChild(cfg, s, k, p, now, o, goal) && (p == [] || p[0].time >= now)
    ensures k in s.childT
    ensures s.(childT := s.childT[k := p + s.childT[k]]) == goal
  {}
}
