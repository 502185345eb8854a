/**
 The connection-event queue of internal/conntail: a growable ring buffer with a
 count limit and a byte limit. The queue is specified on sequences; the class
 below is proved to refine that specification operation by operation.
 */
module Ring {

  import Cyclic

  /** A parsed connection event; only the hosts take part in the byte accounting. */
  datatype ConnEvent = ConnEvent(node: int, src: string, dest: string, port: int)

  const ZERO_EVENT := ConnEvent(0, "", "", 0)

  function EventBytes(ev: ConnEvent): (n: nat) {
    128 + |ev.src| + |ev.dest|
  }

  function Bytes(q: seq<ConnEvent>): nat {
    if q == [] then 0 else EventBytes(q[0]) + Bytes(q[1..])
  }

  function Max(a: int, b: int): int { if a >= b then a else b }

  function Min(a: int, b: int): int { if a <= b then a else b }

  /** The two ceilings of a queue; a byte limit of zero or less means "no byte limit". */
  datatype Limits = Limits(maxEvents: int, maxBytes: int) {
    function Slots(): (n: nat)
      ensures n >= 1
    {
      Max(1, maxEvents)
    }

    /** A queue of this length and byte size can be stored. */
    predicate Holds(q: seq<ConnEvent>) {
      |q| <= Slots() && (maxBytes > 0 ==> Bytes(q) <= maxBytes)
    }
  }

  lemma {:induction false} BytesConcat(a: seq<ConnEvent>, b: seq<ConnEvent>)
    ensures Bytes(a + b) == Bytes(a) + Bytes(b)
  {
    if a == [] {
      assert a + b == b;
    } else {
      assert (a + b)[0] == a[0] && (a + b)[1..] == a[1..] + b;
      BytesConcat(a[1..], b);
    }
  }

  /** Each event costs 128 bytes and its two hosts. */
  lemma BytesSnoc(q: seq<ConnEvent>, ev: ConnEvent)
    ensures Bytes([]) == 0 && Bytes(q + [ev]) == Bytes(q) + 128 + |ev.src| + |ev.dest|
  {
    BytesConcat(q, [ev]);
    assert [ev][1..] == [];
  }

  /** When one more event fits; at least one slot there always is. */
  lemma HoldsOneMore(l: Limits, q: seq<ConnEvent>, ev: ConnEvent)
    ensures l.Holds(q + [ev]) <==>
      && (|q| == 0 || |q| < l.maxEvents)
      && (l.maxBytes <= 0 || Bytes(q) + 128 + |ev.src| + |ev.dest| <= l.maxBytes)
  {
    BytesSnoc(q, ev);
  }

  lemma {:induction false} BytesSplit(q: seq<ConnEvent>, k: nat)
    requires k <= |q|
    ensures Bytes(q) == Bytes(q[..k]) + Bytes(q[k..])
  {
    assert q == q[..k] + q[k..];
    BytesConcat(q[..k], q[k..]);
  }

  lemma {:induction false} SuffixStep(q: seq<ConnEvent>, k: nat, tail: seq<ConnEvent>)
    requires k < |q|
    ensures [q[k]] + (q[k + 1..] + tail) == q[k..] + tail
  {
  }

  lemma {:induction false} HoldsSuffix(l: Limits, q: seq<ConnEvent>, k: nat)
    requires k <= |q| && l.Holds(q)
    ensures l.Holds(q[k..])
  {
    BytesSplit(q, k);
  }

  /** How many of the oldest events a push drops before it stores the new one. */
  function Evicted(l: Limits, q: seq<ConnEvent>, ev: ConnEvent): (k: nat)
    ensures k <= |q|
  {
    if q != [] && !l.Holds(q + [ev]) then 1 + Evicted(l, q[1..], ev) else 0
  }

  /** The queue after a push: oldest events give way, an event larger than the whole budget is refused. */
  function Pushed(l: Limits, q: seq<ConnEvent>, ev: ConnEvent): seq<ConnEvent> {
    if l.maxBytes > 0 && EventBytes(ev) > l.maxBytes then q
    else q[Evicted(l, q, ev)..] + [ev]
  }

  /** A push drops oldest events first and only as many as it must. */
  lemma {:induction false} EvictsOnlyAsNeeded(l: Limits, q: seq<ConnEvent>, ev: ConnEvent)
    requires l.maxBytes > 0 ==> EventBytes(ev) <= l.maxBytes
    ensures l.Holds(Pushed(l, q, ev))
    ensures forall j :: 0 <= j < Evicted(l, q, ev) ==> !l.Holds(q[j..] + [ev])
  {
    assert q[0..] == q;
    if q != [] && !l.Holds(q + [ev]) {
      EvictsOnlyAsNeeded(l, q[1..], ev);
      forall j | 0 < j < Evicted(l, q, ev)
        ensures !l.Holds(q[j..] + [ev])
      {
        assert q[1..][j - 1..] == q[j..];
      }
      assert q[1..][Evicted(l, q[1..], ev)..] == q[Evicted(l, q, ev)..];
    } else if q == [] {
      assert q + [ev] == [ev];
    }
  }

  /** An event that could never fit costs no other event its place. */
  lemma OversizedIsRefused(l: Limits, q: seq<ConnEvent>, ev: ConnEvent)
    ensures Pushed(l, q, ev) == q <== 0 < l.maxBytes < 128 + |ev.src| + |ev.dest|
    ensures ev in Pushed(l, q, ev) <== l.maxBytes <= 0 || 128 + |ev.src| + |ev.dest| <= l.maxBytes
  {
    assert (q[Evicted(l, q, ev)..] + [ev])[|q| - Evicted(l, q, ev)] == ev;
  }

  /** How many of the oldest events of a retried batch find no room any more. */
  function Lost(l: Limits, q: seq<ConnEvent>, evs: seq<ConnEvent>): (k: nat)
    ensures k <= |evs|
    decreases |evs|
  {
    if evs == [] then 0
    else
      var n := |evs| - 1;
      if l.Holds([evs[n]] + q) then Lost(l, [evs[n]] + q, evs[..n]) else |evs|
  }

  lemma {:induction false} LostStep(l: Limits, q: seq<ConnEvent>, evs: seq<ConnEvent>, i: nat)
    requires 0 < i <= |evs|
    ensures Lost(l, q, evs[..i]) == if l.Holds([evs[i - 1]] + q) then Lost(l, [evs[i - 1]] + q, evs[..i - 1]) else i
  {
    assert evs[..i][..i - 1] == evs[..i - 1];
  }

  /** The queue after a retry: what still fits goes back in front, in order. */
  function Requeued(l: Limits, q: seq<ConnEvent>, evs: seq<ConnEvent>): seq<ConnEvent> {
    evs[Lost(l, q, evs)..] + q
  }

  /** A retry keeps the longest suffix of the batch, that is the newest events, that fits. */
  lemma {:induction false} RequeuesLongestSuffix(l: Limits, q: seq<ConnEvent>, evs: seq<ConnEvent>)
    requires l.Holds(q)
    ensures l.Holds(Requeued(l, q, evs))
    ensures forall j :: 0 <= j < Lost(l, q, evs) ==> !l.Holds(evs[j..] + q)
    decreases |evs|
  {
    if evs == [] {
      assert evs + q == q;
    } else {
      var n := |evs| - 1;
      var more := [evs[n]] + q;
      if l.Holds(more) {
        RequeuesLongestSuffix(l, more, evs[..n]);
        forall j | 0 <= j <= n
          ensures evs[j..] + q == evs[..n][j..] + more
        {
        }
      } else {
        assert evs[|evs|..] + q == q;
        forall j | 0 <= j <= n
          ensures !l.Holds(evs[j..] + q)
        {
          assert (evs[j..] + q)[n - j..] == more;
          if l.Holds(evs[j..] + q) {
            HoldsSuffix(l, evs[j..] + q, n - j);
          }
        }
      }
    }
  }

  /** A failed upload leaves no trace: taking a batch and requeueing it restores the queue. */
  lemma {:induction false} TakeRequeueIdentity(l: Limits, q: seq<ConnEvent>, n: nat)
    requires l.Holds(q) && n <= |q|
    ensures Lost(l, q[n..], q[..n]) == 0 && Requeued(l, q[n..], q[..n]) == q
  {
    HoldsSuffix(l, q, n);
    RequeuesLongestSuffix(l, q[n..], q[..n]);
    assert q[..n][0..] + q[n..] == q;
  }

  /** The n events that start at head, wrapping at most once. */
  function Window(buf: seq<ConnEvent>, head: nat, n: nat): (q: seq<ConnEvent>)
    requires n <= |buf| && head <= |buf|
    ensures |q| == n
  {
    if head + n <= |buf| then buf[head..head + n] else buf[head..] + buf[..head + n - |buf|]
  }

  lemma {:induction false} WindowAt(buf: seq<ConnEvent>, head: nat, n: nat, i: nat)
    requires i < n <= |buf| && head < |buf|
    ensures Window(buf, head, n)[i] == buf[Cyclic.Slot(head + i, |buf|)]
  {
  }

  /** A ring of these slots stores exactly this queue. */
  ghost predicate Image(buf: seq<ConnEvent>, head: nat, items: seq<ConnEvent>) {
    && |items| <= |buf|
    && (if buf == [] then head == 0 else head < |buf|)
    && items == Window(buf, head, |items|)
  }

  lemma {:induction false} ImagePop(buf: seq<ConnEvent>, head: nat, items: seq<ConnEvent>)
    requires Image(buf, head, items) && items != []
    ensures buf[head] == items[0]
    ensures Image(buf[head := ZERO_EVENT], Cyclic.Slot(head + 1, |buf|), items[1..])
  {
  }

  lemma {:induction false} ImageAppend(buf: seq<ConnEvent>, head: nat, items: seq<ConnEvent>, ev: ConnEvent)
    requires Image(buf, head, items) && |items| < |buf|
    ensures Image(buf[Cyclic.Slot(head + |items|, |buf|) := ev], head, items + [ev])
  {
  }

  lemma {:induction false} ImagePrepend(buf: seq<ConnEvent>, head: nat, items: seq<ConnEvent>, ev: ConnEvent)
    requires Image(buf, head, items) && |items| < |buf|
    ensures Image(buf[Cyclic.Slot(head + |buf| - 1, |buf|) := ev], Cyclic.Slot(head + |buf| - 1, |buf|), [ev] + items)
  {
  }

  /** Where every event ever handed to Push or Requeue went, except for those held or dropped. */
  datatype Ledger = Ledger(offered: nat, taken: nat, cleared: nat)

  class Tailer {
    const limits: Limits
    const fixed: bool // a shared queue keeps its storage
    var buf: seq<ConnEvent>
    var head: nat
    var count: nat
    var bufferedBytes: int
    var dropped: nat

    ghost var items: seq<ConnEvent> // the queue this ring stores, oldest first
    ghost var ledger: Ledger

    ghost predicate Stores()
      reads this
    {
      Image(buf, head, items) && count == |items| && bufferedBytes == Bytes(items) && |buf| <= limits.Slots()
    }

    ghost predicate Valid()
      reads this
    {
      Stores() && limits.Holds(items) && ledger.offered == ledger.taken + count + dropped + ledger.cleared
    }

    constructor (maxEvents: int, maxBytes: int)
      ensures Valid() && items == [] && limits == Limits(maxEvents, maxBytes) && !fixed
    {
      limits, fixed := Limits(maxEvents, maxBytes), false;
      buf, head, count, bufferedBytes, dropped := [], 0, 0, 0, 0;
      items, ledger := [], Ledger(0, 0, 0);
    }

    /** The shared queue of internal/conntail/shared.go: storage for every slot up front. */
    constructor Shared(slots: nat, payload: int)
      requires slots > 0
      ensures Valid() && items == [] && limits == Limits(slots, payload) && fixed && |buf| == slots
    {
      limits, fixed := Limits(slots, payload), true;
      buf := seq(slots, _ => ZERO_EVENT);
      head, count, bufferedBytes, dropped := 0, 0, 0, 0;
      items, ledger := [], Ledger(0, 0, 0);
    }

    /** Grows a full ring, never beyond the event ceiling, keeping the queue as it is. */
    method Room()
      requires Stores() && count < limits.Slots()
      modifies this`buf, this`head
      ensures Stores() && count < |buf|
    {
      if count < |buf| {
        return;
      }
      var size := Min(Max(16, |buf| * 2), limits.Slots());
      var b := seq(size, _ => ZERO_EVENT);
      var i := 0;
      while i < count
        invariant 0 <= i <= count && |b| == size && buf == old(buf) && head == old(head)
        invariant forall k :: 0 <= k < i ==> b[k] == items[k]
      {
        WindowAt(buf, head, count, i);
        b := b[i := buf[Cyclic.Slot(head + i, |buf|)]];
        i := i + 1;
      }
      assert b[..count] == items;
      buf, head := b, 0;
    }

    method Pop() returns (ev: ConnEvent)
      requires Stores() && count > 0
      modifies this`buf, this`head, this`count, this`bufferedBytes, this`items
      ensures Stores() && ev == old(items)[0] && items == old(items)[1..]
    {
      ImagePop(buf, head, items);
      ev := buf[head];
      buf := buf[head := ZERO_EVENT];
      head := Cyclic.Slot(head + 1, |buf|);
      count := count - 1;
      bufferedBytes := bufferedBytes - EventBytes(ev);
      items := items[1..];
    }

    /** No room for an event of this size, as Push and Requeue test it. */
    predicate Full(size: nat)
      reads this
    {
      count >= limits.Slots() || (limits.maxBytes > 0 && bufferedBytes + size > limits.maxBytes)
    }

    /** Drops the oldest events until the new one fits. */
    method Evict(ev: ConnEvent)
      requires Stores()
      modifies this`buf, this`head, this`count, this`bufferedBytes, this`items, this`dropped
      ensures Stores() && items == old(items)[Evicted(limits, old(items), ev)..]
      ensures dropped + count == old(dropped) + old(count)
    {
      ghost var q := items;
      while count > 0 && Full(EventBytes(ev))
        invariant Stores() && count <= |q| && items == q[|q| - count..]
        invariant dropped + count == old(dropped) + |q|
        invariant Evicted(limits, items, ev) + |q| - count == Evicted(limits, q, ev)
        decreases count
      {
        BytesConcat(items, [ev]);
        var oldest := Pop();
        dropped := dropped + 1;
      }
      BytesConcat(items, [ev]);
    }

    method Push(ev: ConnEvent)
      requires Valid()
      modifies this
      ensures Valid() && items == Pushed(limits, old(items), ev)
      ensures ledger == old(ledger).(offered := old(ledger).offered + 1)
    {
      ledger := ledger.(offered := ledger.offered + 1);
      if limits.maxBytes > 0 && EventBytes(ev) > limits.maxBytes {
        dropped := dropped + 1;
        return;
      }
      EvictsOnlyAsNeeded(limits, items, ev);
      Evict(ev);
      Room();
      Append(ev);
    }

    /** Fills the slot after the newest event. */
    method Append(ev: ConnEvent)
      requires Stores() && count < |buf|
      modifies this`buf, this`count, this`bufferedBytes, this`items
      ensures Stores() && items == old(items) + [ev]
    {
      ImageAppend(buf, head, items, ev);
      BytesConcat(items, [ev]);
      buf := buf[Cyclic.Slot(head + count, |buf|) := ev];
      count := count + 1;
      bufferedBytes := bufferedBytes + EventBytes(ev);
      items := items + [ev];
    }

    /** Fills the slot before the oldest event. */
    method Prepend(ev: ConnEvent)
      requires Stores() && count < |buf|
      modifies this`buf, this`head, this`count, this`bufferedBytes, this`items
      ensures Stores() && items == [ev] + old(items)
    {
      ImagePrepend(buf, head, items, ev);
      BytesConcat([ev], items);
      head := Cyclic.Slot(head + |buf| - 1, |buf|);
      buf := buf[head := ev];
      count := count + 1;
      bufferedBytes := bufferedBytes + EventBytes(ev);
      items := [ev] + items;
    }

    method Take(n: int) returns (out: seq<ConnEvent>)
      requires Valid()
      modifies this
      ensures Valid()
      ensures out == old(items)[..Max(0, Min(n, old(count)))] && items == old(items)[|out|..]
      ensures dropped == old(dropped) && ledger == old(ledger).(taken := old(ledger).taken + |out|)
    {
      HoldsSuffix(limits, items, Max(0, Min(n, count)));
      out := Drain(Max(0, Min(n, count)));
      ledger := ledger.(taken := ledger.taken + |out|);
      if count == 0 && !fixed {
        buf, head := [], 0;
      }
    }

    method Drain(m: nat) returns (out: seq<ConnEvent>)
      requires Stores() && m <= count
      modifies this`buf, this`head, this`count, this`bufferedBytes, this`items
      ensures Stores() && out == old(items)[..m] && items == old(items)[m..]
    {
      ghost var q := items;
      out := [];
      while |out| < m
        invariant |out| <= m && Stores() && out == q[..|out|] && items == q[|out|..]
      {
        var ev := Pop();
        out := out + [ev];
      }
    }

    /** Puts one event back in front unless a limit forbids it. */
    method TryPrepend(ev: ConnEvent) returns (ok: bool)
      requires Stores() && limits.Holds(items)
      modifies this`buf, this`head, this`count, this`bufferedBytes, this`items
      ensures Stores() && limits.Holds(items)
      ensures ok <==> limits.Holds([ev] + old(items))
      ensures items == if ok then [ev] + old(items) else old(items)
    {
      BytesConcat([ev], items);
      ok := !Full(EventBytes(ev));
      if ok {
        Room();
        Prepend(ev);
      }
    }

    /** The events from `i` on are back in front of `q`, and the rest decides how many are lost. */
    ghost predicate PutBack(evs: seq<ConnEvent>, i: nat, q: seq<ConnEvent>, lost: nat)
      reads this
    {
      i <= |evs| && items == evs[i..] + q && limits.Holds(items) && Lost(limits, items, evs[..i]) == lost
    }

    /** Puts back the newest events of a batch, newest first, until one does not fit. */
    method PrependAll(evs: seq<ConnEvent>) returns (i: nat)
      requires Stores() && limits.Holds(items)
      modifies this`buf, this`head, this`count, this`bufferedBytes, this`items
      ensures Stores() && limits.Holds(items)
      ensures i == Lost(limits, old(items), evs) && items == Requeued(limits, old(items), evs)
    {
      ghost var q, k := items, Lost(limits, items, evs);
      i := |evs|;
      assert evs[..i] == evs && evs[i..] + q == q;
      var ok := true;
      while i > 0 && ok
        invariant Stores() && PutBack(evs, i, q, k) && (!ok ==> i == k)
        decreases i, ok
      {
        ok := PrependLast(evs, i, q, k);
        if ok {
          i := i - 1;
        }
      }
    }

    method PrependLast(evs: seq<ConnEvent>, i: nat, ghost q: seq<ConnEvent>, ghost lost: nat) returns (ok: bool)
      requires Stores() && 0 < i <= |evs| && PutBack(evs, i, q, lost)
      modifies this`buf, this`head, this`count, this`bufferedBytes, this`items
      ensures Stores() && PutBack(evs, if ok then i - 1 else i, q, lost) && (!ok ==> i == lost)
    {
      LostStep(limits, items, evs, i);
      SuffixStep(evs, i - 1, q);
      ok := TryPrepend(evs[i - 1]);
    }

    method Requeue(evs: seq<ConnEvent>)
      requires Valid()
      modifies this
      ensures Valid() && items == Requeued(limits, old(items), evs)
      ensures ledger == old(ledger).(offered := old(ledger).offered + |evs|)
    {
      var i := PrependAll(evs);
      dropped := dropped + i;
      ledger := ledger.(offered := ledger.offered + |evs|);
    }

    method Clear()
      requires Valid()
      modifies this
      ensures Valid() && items == []
      ensures dropped == old(dropped) && ledger == old(ledger).(cleared := old(ledger).cleared + old(count))
    {
      ledger := ledger.(cleared := ledger.cleared + count);
      buf := seq(|buf|, _ => ZERO_EVENT);
      head, count, bufferedBytes, items := 0, 0, 0, [];
      if !fixed {
        buf := [];
      }
    }
  }
}
