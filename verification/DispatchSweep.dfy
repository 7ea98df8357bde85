/** The timeout pass over all tables. */
module DispatchSweep {
  import opened Prelude
  import opened DispatchModel
  import opened DispatchInvariant
  import opened DispatchSend
  import opened DispatchUpdate
  import opened DispatchEvents
  import opened DispatchTimeouts

  // ---- Child timeouts ------------------------------------------------------------------------

  /** The state in which a child timeout has been taken off and its child forgotten. */
  function Forgotten(s: State, k: real): State
    requires k in s.childT && s.childT[k] != []
  {
    var t := s.childT[k][0];
    var s1 := s.(childT := Rest(s.childT, k));
    if Has(s1, t.sid, t.srl)
    then (var e := At(s1, t.sid, t.srl); Put(s1, t.sid, t.srl, e.(extracted := e.extracted - {t.data})))
    else s1
  }

  function Forgetter(s: State, k: real): Focus
    requires k in s.childT && s.childT[k] != []
  {
    var t := s.childT[k][0];
    if Has(s, t.sid, t.srl) then Focus(t.sid, t.srl, {}) else NoFocus
  }

  /** The child timeouts of `s1` are those of `s`, save some of child `d` of file (sid, srl). */
  ghost predicate LosesOnly(s: State, s1: State, sid: Sid, srl: Srl, d: Srl) {
    && s1.ackT == s.ackT && s1.svcT == s.svcT && s1.pending == s.pending
    && forall sid1, srl1, c :: Armed(s.childT, sid1, srl1, c) ==>
         Armed(s1.childT, sid1, srl1, c) || (sid1 == sid && srl1 == srl && c == d)
  }

  lemma LosesHere(s: State, s1: State, sid: Sid, srl: Srl, d: Srl, e: Entry)
    requires LosesOnly(s, s1, sid, srl, d) && Covered(s, sid, srl, e, {})
    ensures Covered(s1, sid, srl, e.(extracted := e.extracted - {d}), {})
  {
    hide Armed;
  }

  lemma LosesElsewhere(cfg: Config, s: State, s1: State, sid: Sid, srl: Srl, d: Srl, sid1: Sid, srl1: Srl, e: Entry)
    requires LosesOnly(s, s1, sid, srl, d) && HeldOk(cfg, s, sid1, srl1, e, NoFocus)
    requires sid1 != sid || srl1 != srl
    ensures HeldOk(cfg, s1, sid1, srl1, e, NoFocus)
  {
    hide Armed, EntryOk;
  }

  lemma ForgottenFrame(s: State, k: real)
    requires k in s.childT && s.childT[k] != []
    ensures var t, r := s.childT[k][0], Forgotten(s, k);
            && LosesOnly(s, r, t.sid, t.srl, t.data) && r.childT == Rest(s.childT, k) && r.clock == s.clock
            && r.storage == s.storage && r.started == s.started
            && forall sid :: sid in r.entries <==> sid in s.entries
  {
    RestArms(s.childT, k);
    hide Armed, Rest, Put;
    var t, s1 := s.childT[k][0], s.(childT := Rest(s.childT, k));
    if Has(s1, t.sid, t.srl) {
      PutSame(s1, t.sid, t.srl, At(s1, t.sid, t.srl).(extracted := At(s1, t.sid, t.srl).extracted - {t.data}));
    }
  }

  lemma ForgottenEntry(s: State, k: real, sid: Sid, srl: Srl)
    requires k in s.childT && s.childT[k] != []
    ensures Has(Forgotten(s, k), sid, srl) <==> Has(s, sid, srl)
    ensures var t := s.childT[k][0];
            Has(s, sid, srl) ==>
              At(Forgotten(s, k), sid, srl)
              == if t.sid == sid && t.srl == srl then At(s, sid, srl).(extracted := At(s, sid, srl).extracted - {t.data}) else At(s, sid, srl)
  {
    hide Rest, Put;
    var t, s1 := s.childT[k][0], s.(childT := Rest(s.childT, k));
    if Has(s1, t.sid, t.srl) {
      PutAt(s1, t.sid, t.srl, At(s1, t.sid, t.srl).(extracted := At(s1, t.sid, t.srl).extracted - {t.data}), sid, srl);
    }
  }

  lemma ForgottenHeld(cfg: Config, s: State, k: real, sid: Sid, srl: Srl)
    requires k in s.childT && s.childT[k] != [] && Has(s, sid, srl)
    requires HeldOk(cfg, s, sid, srl, At(s, sid, srl), NoFocus)
    ensures Has(Forgotten(s, k), sid, srl)
    ensures HeldOk(cfg, Forgotten(s, k), sid, srl, At(Forgotten(s, k), sid, srl), Forgetter(s, k))
  {
    hide Armed, EntryOk, Covered, Settled, Forgotten, LosesOnly;
    var t := s.childT[k][0];
    var e := At(s, sid, srl);
    var s1 := Forgotten(s, k);
    ForgottenFrame(s, k);
    ForgottenEntry(s, k, sid, srl);
    if t.sid == sid && t.srl == srl {
      AnnouncedOk(cfg, e, e.extracted - {t.data});
      LosesHere(s, s1, sid, srl, t.data, e);
    } else {
      LosesElsewhere(cfg, s, s1, t.sid, t.srl, t.data, sid, srl, e);
    }
  }

  lemma ForgottenAll(cfg: Config, s: State, k: real)
    requires HeldAll(cfg, s, NoFocus) && k in s.childT && s.childT[k] != []
    ensures HeldAll(cfg, Forgotten(s, k), Forgetter(s, k))
  {
    hide HeldOk, Forgotten, Forgetter;
    forall sid, srl | Has(Forgotten(s, k), sid, srl)
      ensures HeldOk(cfg, Forgotten(s, k), sid, srl, At(Forgotten(s, k), sid, srl), Forgetter(s, k))
    {
      ForgottenEntry(s, k, sid, srl);
      ForgottenHeld(cfg, s, k, sid, srl);
    }
  }

  lemma ForgottenMoved(cfg: Config, s: State, k: real)
    requires SubAll(cfg, s) && SendsOk(cfg, s) && k in s.childT && s.childT[k] != []
    ensures SubAll(cfg, Forgotten(s, k)) && SendsOk(cfg, Forgotten(s, k))
  {
    hide SubAll, SendsOk, Rest;
    var s1 := s.(childT := Rest(s.childT, k));
    var t := s.childT[k][0];
    FewerSends(cfg, s, s1);
    ChildTableSub(cfg, s, s1);
    if Has(s1, t.sid, t.srl) {
      var e := At(s1, t.sid, t.srl);
      MovedSub(cfg, s1, t.sid, t.srl, e.(extracted := e.extracted - {t.data}));
      MovedSends(cfg, s1, t.sid, t.srl, e.(extracted := e.extracted - {t.data}));
    }
  }

  lemma ForgottenKeeps(cfg: Config, s: State, k: real)
    requires Inv(cfg, s, NoFocus) && k in s.childT && s.childT[k] != []
    ensures Inv(cfg, Forgotten(s, k), Forgetter(s, k))
  {
    hide SubAll, SendsOk, Timely, Known, HeldAll, Rest, Forgotten, Forgetter, Balanced;
    RestTimely(s.childT, k, s.clock);
    ForgottenAll(cfg, s, k);
    ForgottenMoved(cfg, s, k);
    ForgottenFrame(s, k);
    SameBalance(cfg, s, Forgotten(s, k));
  }

  lemma ChildTableSub(cfg: Config, s: State, s1: State)
    requires SubAll(cfg, s) && s1 == s.(childT := s1.childT)
    ensures SubAll(cfg, s1)
  {
    hide SubOk;
    forall sid ensures Slot(cfg, s1, sid) { assert Slot(cfg, s, sid); SlotElsewhere(cfg, s, s1, sid); }
  }

  /** check_timeouts for one child timeout. */
  function FireChild(cfg: Config, s: State, k: real, now: real, o: Oracle): State
    requires Inv(cfg, s, NoFocus) && cfg.Valid() && o.Valid() && now == s.clock
    requires k in s.childT && s.childT[k] != []
  {
    var t := s.childT[k][0];
    var s1 := Forgotten(s, k);
    if Has(s, t.sid, t.srl) then
      ForgottenKeeps(cfg, s, k);
      InvReady(cfg, s1, Forgetter(s, k), t.sid);
      Update(cfg, s1, t.sid, t.srl, now, o)
    else s1
  }

  lemma FireChildKeeps(cfg: Config, s: State, k: real, now: real, o: Oracle)
    requires Inv(cfg, s, NoFocus) && cfg.Valid() && o.Valid() && now == s.clock
    requires k in s.childT && s.childT[k] != []
    ensures var s' := FireChild(cfg, s, k, now, o);
            && Inv(cfg, s', NoFocus) && s'.clock == now
            && s'.childT == Rest(s.childT, k) && s'.svcT == s.svcT && Fresh(s.ackT, s'.ackT, now)
  {
    hide Inv, Rest, Fresh;
    var t := s.childT[k][0];
    var s1 := Forgotten(s, k);
    ForgottenKeeps(cfg, s, k);
    SameFresh(s.ackT, now);
    if Has(s, t.sid, t.srl) {
      InvReady(cfg, s1, Forgetter(s, k), t.sid);
      UpdateKeeps(cfg, s1, t.sid, t.srl, now, o);
      UpdateMoves(cfg, s1, t.sid, t.srl, now, o);
    }
  }

  function ScanChildren(cfg: Config, s: State, k: real, m: nat, now: real, o: Oracle): State
    requires Inv(cfg, s, NoFocus) && cfg.Valid() && o.Valid() && now == s.clock
    requires k in s.childT && m <= |s.childT[k]|
    decreases m
  {
    if m == 0 then s
    else
      FireChildKeeps(cfg, s, k, now, o);
      ScanChildren(cfg, FireChild(cfg, s, k, now, o), k, m - 1, now, o)
  }

  lemma {:induction false} ScanChildrenKeeps(cfg: Config, s: State, k: real, m: nat, now: real, o: Oracle)
    requires Inv(cfg, s, NoFocus) && cfg.Valid() && o.Valid() && now == s.clock
    requires k in s.childT && m <= |s.childT[k]|
    ensures var s' := ScanChildren(cfg, s, k, m, now, o);
            && Inv(cfg, s', NoFocus) && s'.clock == now
            && s'.childT == Dropped(s.childT, k, m) && s'.svcT == s.svcT && Fresh(s.ackT, s'.ackT, now)
    decreases m
  {
    hide Inv, FireChild, Fresh, Dropped, Rest;
    if m == 0 {
      DroppedNone(s.childT, k);
      SameFresh(s.ackT, now);
    } else {
      FireChildKeeps(cfg, s, k, now, o);
      DroppedRest(s.childT, k, m);
      var s1 := FireChild(cfg, s, k, now, o);
      ScanChildrenKeeps(cfg, s1, k, m - 1, now, o);
      FreshTrans(s.ackT, s1.ackT, ScanChildren(cfg, s, k, m, now, o).ackT, now);
    }
  }

  // ---- Whole tables --------------------------------------------------------------------------

  /** The lists to visit are in the table. */
  ghost predicate Keyed<D>(t: Table<D>, keys: seq<real>) {
    forall i | 0 <= i < |keys| :: keys[i] in t
  }

  lemma DroppedKeyed<D(!new)>(t: Table<D>, k: real, m: nat, keys: seq<real>)
    requires k in t && m <= |t[k]| && Keyed(t, keys) && keys != []
    ensures Keyed(Dropped(t, k, m), keys[1..])
  {
    forall i | 0 <= i < |keys[1..]| ensures keys[1..][i] in Dropped(t, k, m) { assert keys[i + 1] in t; }
  }

  /** process_timeouts: every list of one table, in the order of `keys`. */
  function Sweep(cfg: Config, s: State, ack: bool, keys: seq<real>, now: real, o: Oracle): State
    requires Inv(cfg, s, NoFocus) && cfg.Valid() && now == s.clock
    requires Keyed(TableOf(s, ack), keys)
    decreases |keys|
  {
    if keys == [] then s
    else
      var m := Expired(TableOf(s, ack)[keys[0]], now);
      ScanKeeps(cfg, s, ack, keys[0], m, now, o);
      ScanFresh(cfg, s, ack, keys[0], m, now, o);
      DroppedKeyed(TableOf(s, ack), keys[0], m, keys);
      FreshKeys(Dropped(TableOf(s, ack), keys[0], m), TableOf(Scan(cfg, s, ack, keys[0], m, now, o), ack), keys[1..], now);
      Sweep(cfg, Scan(cfg, s, ack, keys[0], m, now, o), ack, keys[1..], now, o)
  }

  function SweepChildren(cfg: Config, s: State, keys: seq<real>, now: real, o: Oracle): State
    requires Inv(cfg, s, NoFocus) && cfg.Valid() && o.Valid() && now == s.clock
    requires Keyed(s.childT, keys)
    decreases |keys|
  {
    if keys == [] then s
    else
      var m := Expired(s.childT[keys[0]], now);
      ScanChildrenKeeps(cfg, s, keys[0], m, now, o);
      DroppedKeyed(s.childT, keys[0], m, keys);
      SweepChildren(cfg, ScanChildren(cfg, s, keys[0], m, now, o), keys[1..], now, o)
  }

  // ---- Nothing expired is left ---------------------------------------------------------------

  ghost predicate NoneExpired<D(!new)>(v: seq<Timeout<D>>, now: real) {
    forall i | 0 <= i < |v| :: v[i].time >= now
  }

  /** No list of nonnegative length, save those in `todo`, holds an expired timeout. */
  ghost predicate Clean<D(!new)>(t: Table<D>, todo: seq<real>, now: real) {
    forall k | k in t && k >= 0.0 && k !in todo :: NoneExpired(t[k], now)
  }

  lemma FreshClean<D(!new)>(t: Table<D>, t': Table<D>, todo: seq<real>, now: real)
    requires Fresh(t, t', now) && Clean(t, todo, now)
    ensures Clean(t', todo, now)
  {
    forall k | k in t' && k >= 0.0 && k !in todo ensures NoneExpired(t'[k], now) {
      forall i | 0 <= i < |t'[k]| ensures t'[k][i].time >= now {
        if k in t && i < |t[k]| {
          assert NoneExpired(t[k], now) && t'[k][i] == t[k][i];
        }
      }
    }
  }

  lemma DroppedClean<D(!new)>(t: Table<D>, keys: seq<real>, clock: real)
    requires keys != [] && keys[0] in t && Timely(t, clock) && Clean(t, keys, clock)
    ensures Clean(Dropped(t, keys[0], Expired(t[keys[0]], clock)), keys[1..], clock)
  {
    var k, m := keys[0], Expired(t[keys[0]], clock);
    ExpiredExact(t[k], clock);
    var d: Table<D> := Dropped(t, k, m);
    forall k1 | k1 in d && k1 >= 0.0 && k1 !in keys[1..] ensures NoneExpired(d[k1], clock) {
      if k1 == k {
        forall i | 0 <= i < |d[k]| ensures d[k][i].time >= clock { assert d[k][i] == t[k][i + m]; }
      } else {
        assert k1 !in keys;
      }
    }
  }

  lemma InvTimely(cfg: Config, s: State, ack: bool)
    requires Inv(cfg, s, NoFocus)
    ensures Timely(TableOf(s, ack), s.clock) && Timely(s.childT, s.clock)
  {
    hide SubAll, HeldAll, SendsOk, Timely;
  }

  lemma FreshKeys<D(!new)>(t: Table<D>, t': Table<D>, keys: seq<real>, now: real)
    requires Fresh(t, t', now) && Keyed(t, keys)
    ensures Keyed(t', keys)
  {
    forall i | 0 <= i < |keys| ensures keys[i] in t' {
      var k := keys[i];
      assert k in t && t[k] <= t'[k];
    }
  }

  lemma {:induction false} SweepKeeps(cfg: Config, s: State, ack: bool, keys: seq<real>, now: real, o: Oracle)
    requires Inv(cfg, s, NoFocus) && cfg.Valid() && now == s.clock
    requires Keyed(TableOf(s, ack), keys)
    requires Clean(TableOf(s, ack), keys, now)
    ensures var s' := Sweep(cfg, s, ack, keys, now, o);
            && Inv(cfg, s', NoFocus) && s'.clock == now
            && Clean(TableOf(s', ack), [], now)
            && Fresh(TableOf(s, !ack), TableOf(s', !ack), now) && s'.childT == s.childT
    decreases |keys|
  {
    if keys == [] {
      SameFresh(TableOf(s, !ack), now);
    } else {
      var k := keys[0];
      var m := Expired(TableOf(s, ack)[k], now);
      ScanKeeps(cfg, s, ack, k, m, now, o);
      ScanFresh(cfg, s, ack, k, m, now, o);
      hide Inv, Scan, Fresh, Clean, Timely;
      var s1 := Scan(cfg, s, ack, k, m, now, o);
      var d := Dropped(TableOf(s, ack), k, m);
      InvTimely(cfg, s, ack);
      DroppedClean(TableOf(s, ack), keys, now);
      FreshClean(d, TableOf(s1, ack), keys[1..], now);
      DroppedKeyed(TableOf(s, ack), k, m, keys);
      FreshKeys(d, TableOf(s1, ack), keys[1..], now);
      SweepKeeps(cfg, s1, ack, keys[1..], now, o);
      FreshTrans(TableOf(s, !ack), TableOf(s1, !ack), TableOf(Sweep(cfg, s, ack, keys, now, o), !ack), now);
    }
  }

  lemma {:induction false} SweepChildrenKeeps(cfg: Config, s: State, keys: seq<real>, now: real, o: Oracle)
    requires Inv(cfg, s, NoFocus) && cfg.Valid() && o.Valid() && now == s.clock
    requires Keyed(s.childT, keys)
    requires Clean(s.childT, keys, now)
    ensures var s' := SweepChildren(cfg, s, keys, now, o);
            && Inv(cfg, s', NoFocus) && s'.clock == now
            && Clean(s'.childT, [], now) && s'.svcT == s.svcT && Fresh(s.ackT, s'.ackT, now)
    decreases |keys|
  {
    if keys == [] {
      SameFresh(s.ackT, now);
    } else {
      var k := keys[0];
      var m := Expired(s.childT[k], now);
      ScanChildrenKeeps(cfg, s, k, m, now, o);
      hide Inv, ScanChildren, Fresh, Clean, Timely;
      var s1 := ScanChildren(cfg, s, k, m, now, o);
      InvTimely(cfg, s, true);
      DroppedClean(s.childT, keys, now);
      DroppedKeyed(s.childT, k, m, keys);
      SweepChildrenKeeps(cfg, s1, keys[1..], now, o);
      FreshTrans(s.ackT, s1.ackT, SweepChildren(cfg, s, keys, now, o).ackT, now);
    }
  }

  // ---- check_timeouts ------------------------------------------------------------------------

  lemma CheckStamped(cfg: Config, s: State)
    requires Inv(cfg, s, NoFocus)
    ensures Inv(cfg, s.(lastCheck := s.clock), NoFocus)
  {
    var s' := s.(lastCheck := s.clock);
    SameBalance(cfg, s, s');
    hide Balanced, SubOk, HeldOk, SendsOk, Timely, Known;
    FewerSends(cfg, s, s');
    forall sid ensures Slot(cfg, s', sid) { assert Slot(cfg, s, sid); SlotElsewhere(cfg, s, s', sid); }
    hide Slot;
    forall sid, srl | Has(s', sid, srl) ensures HeldOk(cfg, s', sid, srl, At(s', sid, srl), NoFocus) {
      SameTables(cfg, s, s', sid, srl, At(s, sid, srl), NoFocus);
    }
  }

  lemma AllTodo<D(!new)>(t: Table<D>, keys: seq<real>, now: real)
    requires Lists(keys, t.Keys)
    ensures Clean(t, keys, now) && Keyed(t, keys)
  {
    forall i | 0 <= i < |keys| ensures keys[i] in t { assert keys[i] in keys; }
  }

  /** The pass over the three tables; nothing happens if the last pass is too recent. */
  function CheckTimeouts(cfg: Config, s: State, now: real, o: Oracle): State
    requires Inv(cfg, s, NoFocus) && cfg.Valid() && o.Valid() && now == s.clock
  {
    if now - s.lastCheck < cfg.updateInterval then s
    else
      var s1 := s.(lastCheck := now);
      var keys1 := o.keys(s1.ackT.Keys);
      AllTodo(s1.ackT, keys1, now);
      CheckStamped(cfg, s);
      var s2 := Sweep(cfg, s1, true, keys1, now, o);
      SweepKeeps(cfg, s1, true, keys1, now, o);
      var keys2 := o.keys(s2.svcT.Keys);
      AllTodo(s2.svcT, keys2, now);
      var s3 := Sweep(cfg, s2, false, keys2, now, o);
      SweepKeeps(cfg, s2, false, keys2, now, o);
      var keys3 := o.keys(s3.childT.Keys);
      AllTodo(s3.childT, keys3, now);
      SweepChildren(cfg, s3, keys3, now, o)
  }

  /** The pass keeps the invariant and, unless skipped, leaves no expired timeout behind. */
  lemma CheckKeeps(cfg: Config, s: State, now: real, o: Oracle)
    requires Inv(cfg, s, NoFocus) && cfg.Valid() && o.Valid() && now == s.clock
    ensures var s' := CheckTimeouts(cfg, s, now, o);
            && Inv(cfg, s', NoFocus) && s'.clock == now
            && (now - s.lastCheck >= cfg.updateInterval ==>
                  Clean(s'.ackT, [], now) && Clean(s'.svcT, [], now) && Clean(s'.childT, [], now))
  {
    hide Inv, Sweep, SweepChildren, Clean, Fresh;
    if now - s.lastCheck >= cfg.updateInterval {
      var s1 := s.(lastCheck := now);
      var keys1 := o.keys(s1.ackT.Keys);
      AllTodo(s1.ackT, keys1, now);
      CheckStamped(cfg, s);
      var s2 := Sweep(cfg, s1, true, keys1, now, o);
      SweepKeeps(cfg, s1, true, keys1, now, o);
      var keys2 := o.keys(s2.svcT.Keys);
      AllTodo(s2.svcT, keys2, now);
      var s3 := Sweep(cfg, s2, false, keys2, now, o);
      SweepKeeps(cfg, s2, false, keys2, now, o);
      var keys3 := o.keys(s3.childT.Keys);
      AllTodo(s3.childT, keys3, now);
      SweepChildrenKeeps(cfg, s3, keys3, now, o);
      FreshClean(s2.ackT, s3.ackT, [], now);
      FreshClean(s3.ackT, CheckTimeouts(cfg, s, now, o).ackT, [], now);
    }
  }
}
