/** What the timeout pass and the dispatcher's own replies get done. */
module DispatchProgress {
  import opened Prelude
  import opened DispatchModel
  import opened DispatchInvariant
  import opened DispatchSend
  import opened DispatchUpdate
  import opened DispatchEvents
  import opened DispatchTimeouts
  import opened DispatchSweep

  // ---- A timeout pass moves on, and adds ------------------------------------------------------

  ghost predicate Goes(s: State, s': State) { KeepsDone(s, s') && Adds(s, s') }

  lemma GoesTrans(s0: State, s1: State, s2: State)
    requires Goes(s0, s1) && Goes(s1, s2)
    ensures Goes(s0, s2)
  {
    TellsTrans(s0, s1, s2);
    BooksTrans(s0, s1, s2);
    hide Tells, Books;
  }

  lemma TableGoes(s: State, ack: bool, t: Table<Name>)
    ensures Goes(s, WithTable(s, ack, t))
  {
    SameBooks(s, WithTable(s, ack, t));
    hide Tells, Books;
  }

  lemma MovesGoes(s: State, s': State, now: real)
    requires MovesOn(s, s', now)
    ensures Goes(s, s')
  {}

  lemma FireGoes(cfg: Config, s: State, ack: bool, k: real, now: real, o: Oracle)
    requires Inv(cfg, s, NoFocus) && cfg.Valid() && k in TableOf(s, ack) && TableOf(s, ack)[k] != []
    ensures Goes(s, Fire(cfg, s, ack, k, now, o))
  {
    var t := TableOf(s, ack)[k][0];
    var s1 := WithTable(s, ack, Rest(TableOf(s, ack), k));
    hide Inv, Rest, Dispatch, Arm, Ready, Goes, MovesOn;
    HeadKnown(cfg, s, ack, k);
    InvSlot(cfg, s, NoFocus, t.sid);
    TableGoes(s, ack, Rest(TableOf(s, ack), k));
    if t.sid in s.entries {
      InvReady(cfg, s, NoFocus, t.sid);
      SameReady(cfg, s, ack, Rest(TableOf(s, ack), k), t.sid);
    }
    if Resend(cfg, s1, ack, t.sid, t.srl, t.data) {
      var s2 := Dispatch(cfg, s1, t.sid, t.srl, t.data, now, o);
      var r := Arm(TableOf(s2, ack), k, Timeout(t.sid, t.srl, t.data, now + k));
      DispatchMoves(cfg, s1, t.sid, t.srl, t.data, now, o);
      MovesGoes(s1, s2, now);
      TableGoes(s2, ack, r);
      GoesTrans(s, s1, s2);
      GoesTrans(s, s2, WithTable(s2, ack, r));
    }
  }

  /** Scanning begins with firing the first timeout, which leaves the rest of the list in front. */
  lemma ScanFirst(cfg: Config, s: State, ack: bool, k: real, m: nat, now: real, o: Oracle)
    requires Inv(cfg, s, NoFocus) && cfg.Valid() && now == s.clock
    requires k in TableOf(s, ack) && 0 < m <= |TableOf(s, ack)[k]|
    ensures var s1 := Fire(cfg, s, ack, k, now, o);
            && Inv(cfg, s1, NoFocus) && s1.clock == now && Goes(s, s1)
            && k in TableOf(s1, ack) && TableOf(s, ack)[k][1..] <= TableOf(s1, ack)[k]
            && Scan(cfg, s, ack, k, m, now, o) == Scan(cfg, s1, ack, k, m - 1, now, o)
  {
    hide Inv, Fire, Fresh, Goes;
    FireKeeps(cfg, s, ack, k, now, o);
    FireFresh(cfg, s, ack, k, now, o);
    FireGoes(cfg, s, ack, k, now, o);
    FreshAt(Rest(TableOf(s, ack), k), TableOf(Fire(cfg, s, ack, k, now, o), ack), k, now);
  }

  lemma {:induction false} ScanGoes(cfg: Config, s: State, ack: bool, k: real, m: nat, now: real, o: Oracle)
    requires Inv(cfg, s, NoFocus) && cfg.Valid() && now == s.clock
    requires k in TableOf(s, ack) && m <= |TableOf(s, ack)[k]|
    ensures Goes(s, Scan(cfg, s, ack, k, m, now, o))
    decreases m
  {
    if m > 0 {
      ScanFirst(cfg, s, ack, k, m, now, o);
      hide Inv, Fire, Goes, Scan;
      var s1 := Fire(cfg, s, ack, k, now, o);
      ScanGoes(cfg, s1, ack, k, m - 1, now, o);
      GoesTrans(s, s1, Scan(cfg, s, ack, k, m, now, o));
    }
  }

  lemma {:induction false} SweepGoes(cfg: Config, s: State, ack: bool, keys: seq<real>, now: real, o: Oracle)
    requires Inv(cfg, s, NoFocus) && cfg.Valid() && now == s.clock && Keyed(TableOf(s, ack), keys)
    ensures Goes(s, Sweep(cfg, s, ack, keys, now, o))
    decreases |keys|
  {
    if keys != [] {
      var k := keys[0];
      var m := Expired(TableOf(s, ack)[k], now);
      ScanKeeps(cfg, s, ack, k, m, now, o);
      ScanFresh(cfg, s, ack, k, m, now, o);
      ScanGoes(cfg, s, ack, k, m, now, o);
      hide Inv, Scan, Fresh, Goes;
      var s1 := Scan(cfg, s, ack, k, m, now, o);
      DroppedKeyed(TableOf(s, ack), k, m, keys);
      FreshKeys(Dropped(TableOf(s, ack), k, m), TableOf(s1, ack), keys[1..], now);
      SweepGoes(cfg, s1, ack, keys[1..], now, o);
      GoesTrans(s, s1, Sweep(cfg, s, ack, keys, now, o));
    }
  }

  lemma ForgottenGoes(s: State, k: real)
    requires k in s.childT && s.childT[k] != []
    ensures Goes(s, Forgotten(s, k))
  {
    ForgottenAdds(s, k);
    hide Forgotten, Adds;
    forall sid, srl | Has(Forgotten(s, k), sid, srl) ensures Has(s, sid, srl) && Alike(At(s, sid, srl), At(Forgotten(s, k), sid, srl)) {
      ForgottenEntry(s, k, sid, srl);
    }
  }

  lemma ForgottenAdds(s: State, k: real)
    requires k in s.childT && s.childT[k] != []
    ensures Adds(s, Forgotten(s, k))
  {
    hide Rest, Put, Tells, Books;
    var t, s1 := s.childT[k][0], s.(childT := Rest(s.childT, k));
    SameBooks(s, s1);
    if Has(s1, t.sid, t.srl) {
      PutSame(s1, t.sid, t.srl, At(s1, t.sid, t.srl).(extracted := At(s1, t.sid, t.srl).extracted - {t.data}));
    }
    SameBooks(s, Forgotten(s, k));
  }

  lemma FireChildGoes(cfg: Config, s: State, k: real, now: real, o: Oracle)
    requires Inv(cfg, s, NoFocus) && cfg.Valid() && o.Valid() && now == s.clock && k in s.childT && s.childT[k] != []
    ensures Goes(s, FireChild(cfg, s, k, now, o))
  {
    hide Inv, Rest, Fresh, Forgotten, KeepsDone, Adds;
    var t := s.childT[k][0];
    var s1 := Forgotten(s, k);
    ForgottenGoes(s, k);
    ForgottenKeeps(cfg, s, k);
    if Has(s, t.sid, t.srl) {
      ForgottenEntry(s, k, t.sid, t.srl);
      InvReady(cfg, s1, Forgetter(s, k), t.sid);
      UpdateMoves(cfg, s1, t.sid, t.srl, now, o);
      GoesTrans(s, s1, FireChild(cfg, s, k, now, o));
    }
  }

  lemma {:induction false} ScanChildrenGoes(cfg: Config, s: State, k: real, m: nat, now: real, o: Oracle)
    requires Inv(cfg, s, NoFocus) && cfg.Valid() && o.Valid() && now == s.clock && k in s.childT && m <= |s.childT[k]|
    ensures Goes(s, ScanChildren(cfg, s, k, m, now, o))
    decreases m
  {
    if m > 0 {
      hide Inv, FireChild, Fresh, Goes;
      FireChildKeeps(cfg, s, k, now, o);
      FireChildGoes(cfg, s, k, now, o);
      var s1 := FireChild(cfg, s, k, now, o);
      ScanChildrenGoes(cfg, s1, k, m - 1, now, o);
      GoesTrans(s, s1, ScanChildren(cfg, s, k, m, now, o));
    }
  }

  lemma {:induction false} SweepChildrenGoes(cfg: Config, s: State, keys: seq<real>, now: real, o: Oracle)
    requires Inv(cfg, s, NoFocus) && cfg.Valid() && o.Valid() && now == s.clock && Keyed(s.childT, keys)
    ensures Goes(s, SweepChildren(cfg, s, keys, now, o))
    decreases |keys|
  {
    if keys != [] {
      hide Inv, ScanChildren, Fresh, Goes;
      var k := keys[0];
      var m := Expired(s.childT[k], now);
      ScanChildrenKeeps(cfg, s, k, m, now, o);
      ScanChildrenGoes(cfg, s, k, m, now, o);
      DroppedKeyed(s.childT, k, m, keys);
      var s1 := ScanChildren(cfg, s, k, m, now, o);
      SweepChildrenGoes(cfg, s1, keys[1..], now, o);
      GoesTrans(s, s1, SweepChildren(cfg, s, keys, now, o));
    }
  }

  // ---- An expired timeout is acted upon --------------------------------------------------------

  /** The service has been answered for, or sent once more. */
  ghost predicate Acted(s: State, s': State, sid: Sid, srl: Srl, born: nat, n: Name) {
    Owed(s'.pending, sid, srl, n) || s'.sent[(born, n)] > s.sent[(born, n)]
  }

  lemma ActedLater(s: State, s1: State, s': State, sid: Sid, srl: Srl, born: nat, n: Name)
    requires Acted(s, s1, sid, srl, born, n) && Goes(s1, s')
    ensures Acted(s, s', sid, srl, born, n)
  {}

  lemma ActedBefore(s: State, s1: State, s': State, sid: Sid, srl: Srl, born: nat, n: Name)
    requires Goes(s, s1) && Acted(s1, s', sid, srl, born, n)
    ensures Acted(s, s', sid, srl, born, n)
  {}

  /** The entry's timeout for the service is not spent. */
  ghost predicate Wanted(cfg: Config, e: Entry, ack: bool, n: Name) {
    && n in cfg.services
    && var st := cfg.services[n].stage;
       st < |e.completed| && st < |e.acked| && n !in e.completed[st] && (ack ==> n !in e.acked[st])
  }

  lemma DispatchActs(cfg: Config, s: State, sid: Sid, srl: Srl, n: Name, now: real, o: Oracle)
    requires Has(s, sid, srl) && sid in s.completed && n in cfg.services
    ensures Acted(s, Dispatch(cfg, s, sid, srl, n, now, o), sid, srl, At(s, sid, srl).born, n)
  {
    hide Decide, Arm;
    var out := Decide(cfg, s, sid, srl, n, o);
    EffectActs(Tried(s, sid, srl, n), sid, srl, At(s, sid, srl).born, n, out, now);
  }

  lemma EffectActs(s: State, sid: Sid, srl: Srl, born: nat, n: Name, out: Outcome, now: real)
    ensures Acted(s, Effect(s, sid, srl, born, n, out, now), sid, srl, born, n)
  {
    hide Arm;
  }

  lemma FireActs(cfg: Config, s: State, ack: bool, k: real, now: real, o: Oracle, sid: Sid, srl: Srl, n: Name)
    requires Inv(cfg, s, NoFocus) && cfg.Valid() && k in TableOf(s, ack) && TableOf(s, ack)[k] != []
    requires Names(TableOf(s, ack)[k][0], sid, srl, n) && Has(s, sid, srl) && Wanted(cfg, At(s, sid, srl), ack, n)
    ensures Acted(s, Fire(cfg, s, ack, k, now, o), sid, srl, At(s, sid, srl).born, n)
  {
    var s1 := WithTable(s, ack, Rest(TableOf(s, ack), k));
    HeadKnown(cfg, s, ack, k);
    InvSlot(cfg, s, NoFocus, sid);
    InvReady(cfg, s, NoFocus, sid);
    hide Inv, Rest, Dispatch, Arm, Ready;
    SameReady(cfg, s, ack, Rest(TableOf(s, ack), k), sid);
    assert Resend(cfg, s1, ack, sid, srl, n);
    DispatchActs(cfg, s1, sid, srl, n, now, o);
  }

  lemma WantedBefore(cfg: Config, s: State, s': State, ack: bool, sid: Sid, srl: Srl, n: Name)
    requires Goes(s, s') && Has(s', sid, srl) && Wanted(cfg, At(s', sid, srl), ack, n)
    ensures Has(s, sid, srl) && Wanted(cfg, At(s, sid, srl), ack, n) && At(s, sid, srl).born == At(s', sid, srl).born
  {}

  /** If the timeout at `i` is among those fired, and its service is still wanted afterwards, it was acted upon. */
  lemma {:induction false} ScanActs(cfg: Config, s: State, ack: bool, k: real, m: nat, now: real, o: Oracle, i: nat, sid: Sid, srl: Srl, n: Name)
    requires Inv(cfg, s, NoFocus) && cfg.Valid() && now == s.clock
    requires k in TableOf(s, ack) && i < m <= |TableOf(s, ack)[k]| && Names(TableOf(s, ack)[k][i], sid, srl, n)
    requires var s' := Scan(cfg, s, ack, k, m, now, o); Has(s', sid, srl) && Wanted(cfg, At(s', sid, srl), ack, n)
    ensures var s' := Scan(cfg, s, ack, k, m, now, o); Acted(s, s', sid, srl, At(s', sid, srl).born, n)
    decreases m
  {
    hide Inv, Fire, Goes, Scan, Acted, Wanted;
    ScanFirst(cfg, s, ack, k, m, now, o);
    var s1 := Fire(cfg, s, ack, k, now, o);
    var s' := Scan(cfg, s, ack, k, m, now, o);
    var born := At(s', sid, srl).born;
    ScanGoes(cfg, s1, ack, k, m - 1, now, o);
    WantedBefore(cfg, s1, s', ack, sid, srl, n);
    if i == 0 {
      WantedBefore(cfg, s, s1, ack, sid, srl, n);
      FireActs(cfg, s, ack, k, now, o, sid, srl, n);
      ActedLater(s, s1, s', sid, srl, born, n);
    } else {
      assert TableOf(s1, ack)[k][i - 1] == TableOf(s, ack)[k][1..][i - 1];
      ScanActs(cfg, s1, ack, k, m - 1, now, o, i - 1, sid, srl, n);
      ActedBefore(s, s1, s', sid, srl, born, n);
    }
  }

  /** The list of `k` holds, at `i`, an expired timeout of the service. */
  ghost predicate Due(t: Table<Name>, k: real, i: nat, now: real, sid: Sid, srl: Srl, n: Name) {
    k in t && i < |t[k]| && t[k][i].time < now && Names(t[k][i], sid, srl, n)
  }

  lemma DueFresh(t: Table<Name>, t': Table<Name>, k: real, i: nat, now: real, sid: Sid, srl: Srl, n: Name)
    requires Due(t, k, i, now, sid, srl, n) && Fresh(t, t', now)
    ensures Due(t', k, i, now, sid, srl, n)
  {
    assert t[k] <= t'[k];
  }

  lemma DueExpired(t: Table<Name>, k: real, i: nat, now: real, sid: Sid, srl: Srl, n: Name)
    requires Due(t, k, i, now, sid, srl, n) && Timely(t, now)
    ensures i < Expired(t[k], now)
  {
    ExpiredExact(t[k], now);
  }

  lemma {:induction false} SweepActs(cfg: Config, s: State, ack: bool, keys: seq<real>, now: real, o: Oracle, k: real, i: nat, sid: Sid, srl: Srl, n: Name)
    requires Inv(cfg, s, NoFocus) && cfg.Valid() && now == s.clock && Keyed(TableOf(s, ack), keys)
    requires k in keys && Due(TableOf(s, ack), k, i, now, sid, srl, n)
    requires var s' := Sweep(cfg, s, ack, keys, now, o); Has(s', sid, srl) && Wanted(cfg, At(s', sid, srl), ack, n)
    ensures var s' := Sweep(cfg, s, ack, keys, now, o); Acted(s, s', sid, srl, At(s', sid, srl).born, n)
    decreases |keys|
  {
    var k0 := keys[0];
    var m := Expired(TableOf(s, ack)[k0], now);
    ScanKeeps(cfg, s, ack, k0, m, now, o);
    ScanFresh(cfg, s, ack, k0, m, now, o);
    ScanGoes(cfg, s, ack, k0, m, now, o);
    InvTimely(cfg, s, ack);
    var s1 := Scan(cfg, s, ack, k0, m, now, o);
    var s' := Sweep(cfg, s, ack, keys, now, o);
    hide Inv, Scan, Fresh, Goes, Acted, Wanted, Due, Timely;
    DroppedKeyed(TableOf(s, ack), k0, m, keys);
    FreshKeys(Dropped(TableOf(s, ack), k0, m), TableOf(s1, ack), keys[1..], now);
    SweepGoes(cfg, s1, ack, keys[1..], now, o);
    WantedBefore(cfg, s1, s', ack, sid, srl, n);
    if k0 == k {
      DueExpired(TableOf(s, ack), k, i, now, sid, srl, n);
      DueNames(TableOf(s, ack), k, i, now, sid, srl, n);
      ScanActs(cfg, s, ack, k, m, now, o, i, sid, srl, n);
      ActedLater(s, s1, s', sid, srl, At(s', sid, srl).born, n);
    } else {
      assert k in keys[1..];
      DueElsewhere(TableOf(s, ack), k0, m, k, i, now, sid, srl, n);
      DueFresh(Dropped(TableOf(s, ack), k0, m), TableOf(s1, ack), k, i, now, sid, srl, n);
      SweepActs(cfg, s1, ack, keys[1..], now, o, k, i, sid, srl, n);
      ActedBefore(s, s1, s', sid, srl, At(s', sid, srl).born, n);
    }
  }

  lemma DueNames(t: Table<Name>, k: real, i: nat, now: real, sid: Sid, srl: Srl, n: Name)
    requires Due(t, k, i, now, sid, srl, n)
    ensures k in t && i < |t[k]| && Names(t[k][i], sid, srl, n)
  {}

  lemma DueElsewhere(t: Table<Name>, k0: real, m: nat, k: real, i: nat, now: real, sid: Sid, srl: Srl, n: Name)
    requires Due(t, k, i, now, sid, srl, n) && k0 != k && k0 in t && m <= |t[k0]|
    ensures Due(Dropped(t, k0, m), k, i, now, sid, srl, n)
  {}

  // ---- No child timeout is left ----------------------------------------------------------------

  ghost predicate AllPast<D(!new)>(t: Table<D>, now: real) {
    forall k, i | k in t && 0 <= i < |t[k]| :: t[k][i].time < now
  }

  lemma {:induction false} AllExpired<D(!new)>(v: seq<Timeout<D>>, now: real)
    requires forall i | 0 <= i < |v| :: v[i].time < now
    ensures Expired(v, now) == |v|
  {
    if v != [] { AllExpired(v[1..], now); }
  }

  /** The lists of `keys` have been emptied, the others left alone. */
  ghost predicate Emptied<D(!new)>(t: Table<D>, t': Table<D>, keys: seq<real>) {
    t'.Keys == t.Keys && forall k | k in t :: t'[k] == if k in keys then [] else t[k]
  }

  lemma EmptiedStep<D(!new)>(t: Table<D>, t': Table<D>, keys: seq<real>, now: real)
    requires keys != [] && keys[0] in t && AllPast(t, now)
    ensures Expired(t[keys[0]], now) == |t[keys[0]]| && Dropped(t, keys[0], |t[keys[0]]|) == t[keys[0] := []]
    ensures AllPast(t[keys[0] := []], now)
    ensures Emptied(t[keys[0] := []], t', keys[1..]) ==> Emptied(t, t', keys)
  {
    var k := keys[0];
    PastOf(t, k, now);
    AllExpired(t[k], now);
    assert forall k1 :: k1 in keys <==> k1 == k || k1 in keys[1..];
  }

  lemma PastOf<D(!new)>(t: Table<D>, k: real, now: real)
    requires k in t && AllPast(t, now)
    ensures forall i | 0 <= i < |t[k]| :: t[k][i].time < now
  {}

  lemma {:induction false} SweepChildrenEmpties(cfg: Config, s: State, keys: seq<real>, now: real, o: Oracle)
    requires Inv(cfg, s, NoFocus) && cfg.Valid() && o.Valid() && now == s.clock && Keyed(s.childT, keys)
    requires AllPast(s.childT, now)
    ensures Emptied(s.childT, SweepChildren(cfg, s, keys, now, o).childT, keys)
    decreases |keys|
  {
    if keys != [] {
      hide Inv, ScanChildren, Fresh, AllPast, Emptied, Dropped, Expired;
      var k := keys[0];
      var m := Expired(s.childT[k], now);
      ScanChildrenKeeps(cfg, s, k, m, now, o);
      DroppedKeyed(s.childT, k, m, keys);
      var s1 := ScanChildren(cfg, s, k, m, now, o);
      EmptiedStep(s.childT, SweepChildren(cfg, s, keys, now, o).childT, keys, now);
      SweepChildrenEmpties(cfg, s1, keys[1..], now, o);
    }
  }

  lemma EmptiedArms<D(!new)>(t: Table<D>, t': Table<D>, keys: seq<real>)
    requires Emptied(t, t', keys) && Lists(keys, t.Keys)
    ensures forall sid, srl, d :: !Armed(t', sid, srl, d)
  {}

  // ---- The whole pass --------------------------------------------------------------------------

  /** A pass at `now` comes late enough for every timeout armed. */
  ghost predicate Late(cfg: Config, s: State, now: real) {
    AllPast(s.ackT, now) && AllPast(s.svcT, now) && AllPast(s.childT, now) && now - s.lastCheck >= cfg.updateInterval
  }

  lemma StampGoes(s: State, now: real)
    ensures Goes(s, s.(lastCheck := now))
  {
    SameBooks(s, s.(lastCheck := now));
    hide Tells, Books;
  }

  /** The three parts of a pass that is not skipped. */
  lemma PassParts(cfg: Config, s: State, now: real, o: Oracle) returns (s1: State, s2: State, s3: State, keys1: seq<real>, keys2: seq<real>, keys3: seq<real>)
    requires Inv(cfg, s, NoFocus) && cfg.Valid() && o.Valid() && now == s.clock && now - s.lastCheck >= cfg.updateInterval
    ensures s1 == s.(lastCheck := now) && Inv(cfg, s1, NoFocus) && Goes(s, s1)
    ensures Lists(keys1, s1.ackT.Keys) && Keyed(s1.ackT, keys1) && s2 == Sweep(cfg, s1, true, keys1, now, o)
    ensures Inv(cfg, s2, NoFocus) && s2.clock == now && Fresh(s1.svcT, s2.svcT, now) && s2.childT == s1.childT
    ensures Lists(keys2, s2.svcT.Keys) && Keyed(s2.svcT, keys2) && s3 == Sweep(cfg, s2, false, keys2, now, o)
    ensures Inv(cfg, s3, NoFocus) && s3.clock == now && s3.childT == s2.childT
    ensures Lists(keys3, s3.childT.Keys) && Keyed(s3.childT, keys3) && CheckTimeouts(cfg, s, now, o) == SweepChildren(cfg, s3, keys3, now, o)
  {
    hide Inv, Sweep, SweepChildren, Clean, Fresh, Keyed, Goes;
    s1 := s.(lastCheck := now);
    StampGoes(s, now);
    keys1 := o.keys(s1.ackT.Keys);
    AllTodo(s1.ackT, keys1, now);
    CheckStamped(cfg, s);
    s2 := Sweep(cfg, s1, true, keys1, now, o);
    SweepKeeps(cfg, s1, true, keys1, now, o);
    keys2 := o.keys(s2.svcT.Keys);
    AllTodo(s2.svcT, keys2, now);
    s3 := Sweep(cfg, s2, false, keys2, now, o);
    SweepKeeps(cfg, s2, false, keys2, now, o);
    keys3 := o.keys(s3.childT.Keys);
    AllTodo(s3.childT, keys3, now);
  }

  lemma PassGoes(cfg: Config, s: State, now: real, o: Oracle)
    requires Inv(cfg, s, NoFocus) && cfg.Valid() && o.Valid() && now == s.clock && now - s.lastCheck >= cfg.updateInterval
    ensures Goes(s, CheckTimeouts(cfg, s, now, o))
  {
    hide Inv, Sweep, SweepChildren, CheckTimeouts, Fresh, Keyed, Goes;
    var s1, s2, s3, keys1, keys2, keys3 := PassParts(cfg, s, now, o);
    SweepGoes(cfg, s1, true, keys1, now, o);
    SweepGoes(cfg, s2, false, keys2, now, o);
    SweepChildrenGoes(cfg, s3, keys3, now, o);
    GoesTrans(s, s1, s2);
    GoesTrans(s, s2, s3);
    GoesTrans(s, s3, CheckTimeouts(cfg, s, now, o));
  }

  lemma PassEmpties(cfg: Config, s: State, now: real, o: Oracle, sid: Sid, srl: Srl, c: Srl)
    requires Inv(cfg, s, NoFocus) && cfg.Valid() && o.Valid() && now == s.clock && Late(cfg, s, now)
    ensures !Armed(CheckTimeouts(cfg, s, now, o).childT, sid, srl, c)
  {
    hide Inv, Sweep, SweepChildren, CheckTimeouts, Fresh, Keyed, Armed;
    var s1, s2, s3, keys1, keys2, keys3 := PassParts(cfg, s, now, o);
    SweepChildrenEmpties(cfg, s3, keys3, now, o);
    EmptiedArms(s3.childT, CheckTimeouts(cfg, s, now, o).childT, keys3);
  }

  lemma LateDue(t: Table<Name>, now: real, sid: Sid, srl: Srl, n: Name) returns (k: real, i: nat)
    requires Armed(t, sid, srl, n) && AllPast(t, now)
    ensures Due(t, k, i, now, sid, srl, n)
  {
    var k1, i1 :| k1 in t && 0 <= i1 < |t[k1]| && Names(t[k1][i1], sid, srl, n);
    k, i := k1, i1;
  }

  /** Every service with a timeout armed before, and still wanted after, was acted upon. */
  lemma PassActs(cfg: Config, s: State, ack: bool, now: real, o: Oracle, sid: Sid, srl: Srl, n: Name)
    requires Inv(cfg, s, NoFocus) && cfg.Valid() && o.Valid() && now == s.clock && Late(cfg, s, now)
    requires Armed(TableOf(s, ack), sid, srl, n)
    requires var s' := CheckTimeouts(cfg, s, now, o); Has(s', sid, srl) && Wanted(cfg, At(s', sid, srl), ack, n)
    ensures var s' := CheckTimeouts(cfg, s, now, o); Acted(s, s', sid, srl, At(s', sid, srl).born, n)
  {
    hide Inv, CheckTimeouts, Armed, Acted, Wanted, Due;
    var k, i := LateDue(TableOf(s, ack), now, sid, srl, n);
    if ack { PassActsAck(cfg, s, now, o, k, i, sid, srl, n); } else { PassActsService(cfg, s, now, o, k, i, sid, srl, n); }
  }

  lemma PassActsAck(cfg: Config, s: State, now: real, o: Oracle, k: real, i: nat, sid: Sid, srl: Srl, n: Name)
    requires Inv(cfg, s, NoFocus) && cfg.Valid() && o.Valid() && now == s.clock && Late(cfg, s, now)
    requires Due(s.ackT, k, i, now, sid, srl, n)
    requires var s' := CheckTimeouts(cfg, s, now, o); Has(s', sid, srl) && Wanted(cfg, At(s', sid, srl), true, n)
    ensures var s' := CheckTimeouts(cfg, s, now, o); Acted(s, s', sid, srl, At(s', sid, srl).born, n)
  {
    var s1, s2, s3, keys1, keys2, keys3 := PassParts(cfg, s, now, o);
    var s' := CheckTimeouts(cfg, s, now, o);
    hide Inv, Sweep, SweepChildren, CheckTimeouts, Fresh, Keyed, Armed, Acted, Wanted, Due, Goes, AllPast;
    SweepGoes(cfg, s2, false, keys2, now, o);
    SweepChildrenGoes(cfg, s3, keys3, now, o);
    GoesTrans(s2, s3, s');
    WantedBefore(cfg, s2, s', true, sid, srl, n);
    DueNames(s.ackT, k, i, now, sid, srl, n);
    SweepActs(cfg, s1, true, keys1, now, o, k, i, sid, srl, n);
    ActedBefore(s, s1, s2, sid, srl, At(s', sid, srl).born, n);
    ActedLater(s, s2, s', sid, srl, At(s', sid, srl).born, n);
  }

  lemma PassActsService(cfg: Config, s: State, now: real, o: Oracle, k: real, i: nat, sid: Sid, srl: Srl, n: Name)
    requires Inv(cfg, s, NoFocus) && cfg.Valid() && o.Valid() && now == s.clock && Late(cfg, s, now)
    requires Due(s.svcT, k, i, now, sid, srl, n)
    requires var s' := CheckTimeouts(cfg, s, now, o); Has(s', sid, srl) && Wanted(cfg, At(s', sid, srl), false, n)
    ensures var s' := CheckTimeouts(cfg, s, now, o); Acted(s, s', sid, srl, At(s', sid, srl).born, n)
  {
    var s1, s2, s3, keys1, keys2, keys3 := PassParts(cfg, s, now, o);
    var s' := CheckTimeouts(cfg, s, now, o);
    hide Inv, Sweep, SweepChildren, CheckTimeouts, Fresh, Keyed, Armed, Acted, Wanted, Due, Goes, AllPast;
    SweepGoes(cfg, s1, true, keys1, now, o);
    SweepChildrenGoes(cfg, s3, keys3, now, o);
    WantedBefore(cfg, s3, s', false, sid, srl, n);
    DueFresh(s1.svcT, s2.svcT, k, i, now, sid, srl, n);
    DueNames(s2.svcT, k, i, now, sid, srl, n);
    SweepActs(cfg, s2, false, keys2, now, o, k, i, sid, srl, n);
    GoesTrans(s, s1, s2);
    ActedBefore(s, s2, s3, sid, srl, At(s', sid, srl).born, n);
    ActedLater(s, s3, s', sid, srl, At(s', sid, srl).born, n);
  }
}
