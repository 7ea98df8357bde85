/** The PriorityQueue of al/common/queue.py. */
module PriorityQueue {
  // A redis sorted set whose members carry their order in their first 21 characters.

  import opened Prelude

  const WIDTH: nat := 20

  // ---- Zero-padded numbers -------------------------------------------------------------------

  function Pow10(n: nat): nat {
    if n == 0 then 1 else 10 * Pow10(n - 1)
  }

  function Digit(n: nat): char
    requires n < 10
  {
    ('0' as int + n) as char
  }

  /** The last `width` decimal digits: "%0<width>d" below 10^width. */
  function Padded(n: nat, width: nat): (s: string)
    ensures |s| == width
  {
    if width == 0 then "" else Padded(n / 10, width - 1) + [Digit(n % 10)]
  }

  /** The byte order of redis on strings: code by code, shorter first. */
  predicate Less(a: string, b: string) {
    b != [] && (a == [] || a[0] < b[0] || (a[0] == b[0] && Less(a[1..], b[1..])))
  }

  lemma {:induction false} LessAppend(a: string, b: string, x: string, y: string)
    requires |a| == |b|
    ensures Less(a + x, b + y) <==> Less(a, b) || (a == b && Less(x, y))
  {
    if a == [] {
      assert a + x == x && b + y == y;
    } else {
      LessAppend(a[1..], b[1..], x, y);
      assert (a + x)[1..] == a[1..] + x && (b + y)[1..] == b[1..] + y;
      assert a == [a[0]] + a[1..] && b == [b[0]] + b[1..];
    }
  }

  lemma {:induction false} LessIrreflexive(a: string)
    ensures !Less(a, a)
  {
    if a != [] { LessIrreflexive(a[1..]); }
  }

  lemma LessDigit(m: nat, n: nat)
    requires m < 10 && n < 10
    ensures Less([Digit(m)], [Digit(n)]) <==> m < n
    ensures Digit(m) == Digit(n) <==> m == n
  {
    LessIrreflexive([]);
    assert [Digit(m)][1..] == [] && [Digit(n)][1..] == [];
  }

  /** Below 10^width the byte order of the padded digits is the numeric order. */
  lemma {:induction false} PaddedOrder(m: nat, n: nat, width: nat)
    requires m < Pow10(width) && n < Pow10(width)
    ensures Less(Padded(m, width), Padded(n, width)) <==> m < n
    ensures Padded(m, width) == Padded(n, width) <==> m == n
  {
    if width > 0 {
      PaddedOrder(m / 10, n / 10, width - 1);
      LessAppend(Padded(m / 10, width - 1), Padded(n / 10, width - 1), [Digit(m % 10)], [Digit(n % 10)]);
      LessDigit(m % 10, n % 10);
      var a, b := Padded(m / 10, width - 1), Padded(n / 10, width - 1);
      var x, y := [Digit(m % 10)], [Digit(n % 10)];
      assert (a + x)[..width - 1] == a && (b + y)[..width - 1] == b;
      assert (a + x)[width - 1] == x[0] && (b + y)[width - 1] == y[0];
    } else {
      LessIrreflexive([]);
    }
  }

  // ---- Entries and members -------------------------------------------------------------------

  /** A pushed item. */
  datatype Entry = Entry(priority: int, vip: bool, seqNo: nat, payload: string)

  datatype Member = Member(score: int, text: string)

  /** What the push script adds for the item: score, vip digit, padded sequence number, payload. */
  function Encode(e: Entry): Member {
    Member(0 - e.priority, (if e.vip then "0" else "9") + Padded(e.seqNo, WIDTH) + e.payload)
  }

  /** The order of a sorted set: by score, then by bytes. */
  predicate RanksBefore(a: Member, b: Member) {
    a.score < b.score || (a.score == b.score && Less(a.text, b.text))
  }

  /** The order meant: by priority descending, vip first, then by arrival. */
  predicate Sooner(a: Entry, b: Entry) {
    a.priority > b.priority
    || (a.priority == b.priority && ((a.vip && !b.vip) || (a.vip == b.vip && a.seqNo < b.seqNo)))
  }

  /** Redis ranks members as the queue means to order items. */
  lemma RankIsOrder(a: Entry, b: Entry)
    requires a.seqNo < Pow10(WIDTH) && b.seqNo < Pow10(WIDTH) && a.seqNo != b.seqNo
    ensures RanksBefore(Encode(a), Encode(b)) <==> Sooner(a, b)
    ensures Encode(a).text != Encode(b).text
  {
    hide Padded, Less, Pow10;
    var v, w := if a.vip then "0" else "9", if b.vip then "0" else "9";
    var m, n := Padded(a.seqNo, WIDTH), Padded(b.seqNo, WIDTH);
    VipOrder(a.vip, b.vip);
    PaddedOrder(a.seqNo, b.seqNo, WIDTH);
    LessAppend(v, w, m, n);
    LessAppend(v + m, w + n, a.payload, b.payload);
    assert Encode(a).text[..21] == v + m && Encode(b).text[..21] == w + n;
    assert (v + m)[1..] == m && (w + n)[1..] == n;
  }

  lemma VipOrder(v: bool, w: bool)
    ensures Less(if v then "0" else "9", if w then "0" else "9") <==> v && !w
  {
    LessIrreflexive([]);
    assert "0"[1..] == [] && "9"[1..] == [];
  }

  /** s[21:] gives back the payload. */
  lemma StripReturnsPayload(e: Entry)
    ensures |Encode(e).text| >= 21 && Encode(e).text[21..] == e.payload
  {}

  // ---- Sorted sets ---------------------------------------------------------------------------

  /** zadd of a member that is not there. */
  function Placed(items: seq<Member>, m: Member): seq<Member> {
    if items == [] then [m]
    else if RanksBefore(m, items[0]) then [m] + items
    else [items[0]] + Placed(items[1..], m)
  }

  /** A redis index: negative ones count from the end, and are cut off at the front. */
  function At(n: nat, i: int): int {
    if i < 0 then Max(n + i, 0) else i
  }

  /** zrange(start, stop): the ranks it covers, as a half-open interval. */
  function Range(n: nat, start: int, stop: int): (r: (nat, nat))
    ensures r.0 <= r.1 <= n
  {
    var lo, hi := At(n, start), if stop < 0 then n + stop else stop;
    if lo > hi || lo >= n then (0, 0) else (lo, Min(hi + 1, n))
  }

  // ---- The queue as a list of items ----------------------------------------------------------

  function Queued(es: seq<Entry>): (ms: seq<Member>)
    ensures |ms| == |es|
  {
    seq(|es|, i requires 0 <= i < |es| => Encode(es[i]))
  }

  function Payloads(es: seq<Entry>): (ps: seq<string>)
    ensures |ps| == |es|
  {
    seq(|es|, i requires 0 <= i < |es| => es[i].payload)
  }

  /** Items in the order they will come out, numbered up to `last`. */
  ghost predicate InOrder(es: seq<Entry>, last: nat) {
    && (forall i, j :: 0 <= i < j < |es| ==> Sooner(es[i], es[j]) && es[i].seqNo != es[j].seqNo)
    && forall i | 0 <= i < |es| :: es[i].seqNo <= last
  }

  /** The list with one more item, behind all that come sooner. */
  function Inserted(es: seq<Entry>, e: Entry): seq<Entry> {
    if es == [] then [e]
    else if Sooner(e, es[0]) then [e] + es
    else [es[0]] + Inserted(es[1..], e)
  }

  lemma {:induction false} InsertedSame(es: seq<Entry>, e: Entry)
    ensures multiset(Inserted(es, e)) == multiset(es) + multiset{e}
  {
    hide Sooner;
    if es != [] {
      if !Sooner(e, es[0]) { InsertedSame(es[1..], e); }
      assert es == [es[0]] + es[1..];
    }
  }

  lemma {:induction false} InsertedInOrder(es: seq<Entry>, e: Entry, last: nat)
    requires InOrder(es, last) && e.seqNo > last
    ensures InOrder(Inserted(es, e), e.seqNo)
  {
    if es != [] && !Sooner(e, es[0]) {
      TailInOrder(es, last);
      InsertedInOrder(es[1..], e, last);
      assert es[0].seqNo != e.seqNo && Sooner(es[0], e);
      forall x | x in es[1..] ensures Sooner(es[0], x) && es[0].seqNo != x.seqNo {
        var j :| 0 <= j < |es[1..]| && es[1..][j] == x;
        assert es[j + 1] == x;
      }
      InsertedSame(es[1..], e);
      FrontInOrder(es[0], Inserted(es[1..], e), es[1..], e);
    } else {
      FrontKeeps(es, e, last);
    }
  }

  lemma FrontInOrder(first: Entry, rest: seq<Entry>, others: seq<Entry>, e: Entry)
    requires InOrder(rest, e.seqNo) && multiset(rest) == multiset(others) + multiset{e} && first.seqNo <= e.seqNo
    requires Sooner(first, e) && first.seqNo != e.seqNo
    requires forall x | x in others :: Sooner(first, x) && first.seqNo != x.seqNo
    ensures InOrder([first] + rest, e.seqNo)
  {
    hide Sooner;
    forall i | 0 <= i < |rest| ensures Sooner(first, rest[i]) && first.seqNo != rest[i].seqNo {
      assert rest[i] in multiset(rest);
      assert rest[i] == e || rest[i] in others;
    }
  }

  lemma InsertedKeeps(es: seq<Entry>, e: Entry, last: nat)
    requires InOrder(es, last) && e.seqNo > last
    ensures InOrder(Inserted(es, e), e.seqNo) && multiset(Inserted(es, e)) == multiset(es) + multiset{e}
  {
    hide InOrder, Inserted;
    InsertedSame(es, e);
    InsertedInOrder(es, e, last);
  }

  lemma TailInOrder(es: seq<Entry>, last: nat)
    requires InOrder(es, last) && es != []
    ensures InOrder(es[1..], last)
  {
    forall i, j | 0 <= i < j < |es[1..]| ensures Sooner(es[1..][i], es[1..][j]) && es[1..][i].seqNo != es[1..][j].seqNo {
      assert Sooner(es[i + 1], es[j + 1]) && es[i + 1].seqNo != es[j + 1].seqNo;
    }
  }

  lemma FrontKeeps(es: seq<Entry>, e: Entry, last: nat)
    requires InOrder(es, last) && e.seqNo > last && (es == [] || Sooner(e, es[0]))
    ensures InOrder([e] + es, e.seqNo)
  {
    forall i | 0 <= i < |es| ensures Sooner(e, es[i]) && e.seqNo != es[i].seqNo {
      if i > 0 { assert Sooner(es[0], es[i]); }
    }
  }

  /** Adding the encoded item to the sorted set adds the item to the list; it never replaces a
      member, so equal payloads are not merged. */
  lemma {:induction false} PlacedIsInserted(es: seq<Entry>, e: Entry, last: nat)
    requires InOrder(es, last) && last < e.seqNo < Pow10(WIDTH)
    ensures Placed(Queued(es), Encode(e)) == Queued(Inserted(es, e))
    ensures forall i | 0 <= i < |es| :: Queued(es)[i].text != Encode(e).text
  {
    hide Encode, RanksBefore, Sooner, Pow10;
    if es != [] {
      assert es[0].seqNo <= last;
      RankIsOrder(e, es[0]);
      assert Queued(es)[0] == Encode(es[0]) && Queued(es)[1..] == Queued(es[1..]);
      forall i | 0 <= i < |es| ensures Queued(es)[i].text != Encode(e).text { RankIsOrder(e, es[i]); }
      if Sooner(e, es[0]) {
        assert Queued([e] + es) == [Encode(e)] + Queued(es);
      } else {
        TailInOrder(es, last);
        PlacedIsInserted(es[1..], e, last);
        assert Queued([es[0]] + Inserted(es[1..], e)) == [Encode(es[0])] + Queued(Inserted(es[1..], e));
      }
    } else {
      assert Queued([e]) == [Encode(e)];
    }
  }

  /** What comes out first: nothing of lower priority before a higher one; at the same priority no other
      item before a vip one; and of two alike the one pushed earlier. */
  lemma ComesFirst(es: seq<Entry>, last: nat, i: nat, j: nat)
    requires InOrder(es, last) && i < j < |es|
    ensures es[i].priority >= es[j].priority
    ensures es[i].priority == es[j].priority && es[j].vip ==> es[i].vip
    ensures es[i].priority == es[j].priority && es[i].vip == es[j].vip ==> es[i].seqNo < es[j].seqNo
  {}

  /** The queued item was pushed before the new one and is as urgent, or more. */
  predicate Ahead(x: Entry, e: Entry) {
    x.priority > e.priority || (x.priority == e.priority && (x.vip || !e.vip))
  }

  predicate Behind(x: Entry, e: Entry) {
    x.priority < e.priority || (x.priority == e.priority && e.vip && !x.vip)
  }

  /** The new item goes behind all that are as urgent and in front of all that are less so. */
  lemma {:induction false} InsertedWhere(es: seq<Entry>, e: Entry, last: nat) returns (k: nat)
    requires InOrder(es, last) && e.seqNo > last
    ensures k <= |es| && Inserted(es, e) == es[..k] + [e] + es[k..]
    ensures forall i | 0 <= i < k :: Ahead(es[i], e)
    ensures forall i | k <= i < |es| :: Behind(es[i], e)
  {
    hide Sooner, InOrder, Ahead, Behind;
    if es == [] {
      k := 0;
      assert Inserted(es, e) == es[..0] + [e] + es[0..];
    } else if Sooner(e, es[0]) {
      k := 0;
      FirstOfAll(es, e, last);
      assert Inserted(es, e) == es[..0] + [e] + es[0..];
    } else {
      TailInOrder(es, last);
      var n := InsertedWhere(es[1..], e, last);
      k := n + 1;
      NotSooner(es, e, last);
      assert es[..k] == [es[0]] + es[1..][..n] && es[k..] == es[1..][n..];
      assert Inserted(es, e) == es[..k] + [e] + es[k..];
      forall i | 0 <= i < k ensures Ahead(es[i], e) { assert i > 0 ==> es[i] == es[1..][i - 1]; }
      forall i | k <= i < |es| ensures Behind(es[i], e) { assert es[i] == es[1..][i - 1]; }
    }
  }

  lemma NotSooner(es: seq<Entry>, e: Entry, last: nat)
    requires es != [] && InOrder(es, last) && e.seqNo > last && !Sooner(e, es[0])
    ensures Ahead(es[0], e)
  {}

  lemma FirstOfAll(es: seq<Entry>, e: Entry, last: nat)
    requires es != [] && InOrder(es, last) && e.seqNo > last && Sooner(e, es[0])
    ensures forall i | 0 <= i < |es| :: Behind(es[i], e)
  {
    assert es[0].seqNo <= last;
    forall i | 0 <= i < |es| ensures Behind(es[i], e) {
      if i > 0 { assert Sooner(es[0], es[i]); }
    }
  }

  lemma InOrderLater(es: seq<Entry>, last: nat, later: nat)
    requires InOrder(es, last) && last <= later
    ensures InOrder(es, later)
  {}
}

module PriorityQueueObject {
  import opened Prelude
  import opened PriorityQueue

  /** A redis server: its global sequence and its sorted sets.  The ghost lists say which items the
      sets hold, in the order they will come out. */
  class Server {
    var sequence: nat
    var sets: map<string, seq<Member>>
    ghost var queues: map<string, seq<Entry>>

    ghost function Queue(name: string): seq<Entry>
      reads this
    {
      Get(queues, name, [])
    }

    ghost predicate Valid()
      reads this
    {
      forall name :: InOrder(Queue(name), sequence) && Get(sets, name, []) == Queued(Queue(name))
    }

    constructor ()
      ensures Valid() && queues == map[] && sequence == 0
    {
      sequence, sets, queues := 0, map[], map[];
    }

    /** push(priority, data, vip), data being its JSON text. */
    method Push(name: string, priority: int, vip: bool, data: string)
      requires Valid() && sequence + 1 < Pow10(WIDTH)
      modifies this
      ensures Valid() && sequence == old(sequence) + 1
      ensures queues == old(queues)[name := Inserted(old(Queue(name)), Entry(priority, vip, old(sequence) + 1, data))]
    {
      hide Padded, RanksBefore, Sooner, Placed, Inserted, Pow10;
      ghost var before := Queue(name);
      ghost var was := sequence;
      ghost var entry := Entry(priority, vip, sequence + 1, data);
      InsertedKeeps(before, entry, sequence);
      PlacedIsInserted(before, entry, sequence);
      sequence := sequence + 1;
      var member := Member(0 - priority, (if vip then "0" else "9") + Padded(sequence, WIDTH) + data);
      sets := sets[name := Placed(Get(sets, name, []), member)];
      queues := queues[name := Inserted(before, entry)];
      forall other ensures InOrder(Queue(other), sequence) && Get(sets, other, []) == Queued(Queue(other)) {
        if other != name {
          assert InOrder(old(Queue(other)), was) && Get(old(sets), other, []) == Queued(old(Queue(other)));
          InOrderLater(Queue(other), was, sequence);
        }
      }
    }

    /** zrange and zremrangebyrank of the same ranks, and [21:] of each result. */
    method Take(name: string, start: int, stop: int) returns (data: seq<string>)
      requires Valid()
      modifies this
      ensures Valid() && sequence == old(sequence)
      ensures var q := old(Queue(name)); var (lo, hi) := Range(|q|, start, stop);
              data == Payloads(q[lo..hi]) && queues == old(queues)[name := q[..lo] + q[hi..]]
    {
      hide Encode, Sooner;
      var items := Get(sets, name, []);
      var (lo, hi) := Range(|items|, start, stop);
      ghost var q := Queue(name);
      sets := sets[name := items[..lo] + items[hi..]];
      queues := queues[name := q[..lo] + q[hi..]];
      data := [];
      for i := lo to hi
        invariant data == Payloads(q[lo..i])
        invariant sets == old(sets)[name := items[..lo] + items[hi..]] && queues == old(queues)[name := q[..lo] + q[hi..]]
        invariant sequence == old(sequence)
      {
        StripReturnsPayload(q[i]);
        assert items[i] == Encode(q[i]);
        data := data + [items[i].text[21..]];
        assert q[lo..i + 1] == q[lo..i] + [q[i]];
      }
      Rest(q, lo, hi, sequence);
      assert Queued(q[..lo] + q[hi..]) == items[..lo] + items[hi..];
      forall other ensures InOrder(Queue(other), sequence) && Get(sets, other, []) == Queued(Queue(other)) {
        assert InOrder(old(Queue(other)), old(sequence)) && Get(old(sets), other, []) == Queued(old(Queue(other)));
      }
    }

    /** The next `num` items. */
    method Pop(name: string, num: int) returns (data: seq<string>)
      requires Valid()
      modifies this
      ensures Valid() && sequence == old(sequence)
      ensures var q := old(Queue(name)); var n := Min(Max(num, 0), |q|);
              data == Payloads(q[..n]) && Queue(name) == q[n..]
      ensures forall other | other != name :: Queue(other) == old(Queue(other))
    {
      if num - 1 < 0 { return []; }
      data := Take(name, 0, num - 1);
    }

    /** The last `num` items, taken back; for 0 the whole queue. */
    method Unpush(name: string, num: int) returns (data: seq<string>)
      requires Valid()
      modifies this
      ensures Valid() && sequence == old(sequence)
      ensures num < 0 ==> data == [] && Queue(name) == old(Queue(name))
      ensures num >= 1 ==> var q := old(Queue(name)); var n := Min(num, |q|);
              data == Payloads(q[|q| - n..]) && Queue(name) == q[..|q| - n]
      ensures num == 0 ==> data == Payloads(old(Queue(name))) && Queue(name) == []
      ensures var q := old(Queue(name)); var n := Min(Max(num, 0), |q|);
              data == Payloads(q[|q| - n..]) && Queue(name) == q[..|q| - n] <==> num != 0 || q == []
      ensures forall other | other != name :: Queue(other) == old(Queue(other))
    {
      if num < 0 { return []; }
      data := Take(name, 0 - num, 0 - 1);
    }
  }

  lemma Rest(q: seq<Entry>, lo: nat, hi: nat, last: nat)
    requires InOrder(q, last) && lo <= hi <= |q|
    ensures InOrder(q[..lo] + q[hi..], last)
  {
    hide Sooner;
    var s := q[..lo] + q[hi..];
    forall i, j | 0 <= i < j < |s| ensures Sooner(s[i], s[j]) && s[i].seqNo != s[j].seqNo {
      var a, b := if i < lo then i else i - lo + hi, if j < lo then j else j - lo + hi;
      assert s[i] == q[a] && s[j] == q[b];
    }
  }
}
