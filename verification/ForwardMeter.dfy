/**
 Fixed-forward metering (internal/agent/forward_meter.go). Every forward the agent
 ever metered stays remembered until the controller acknowledged a frozen receipt
 that carries its last counter and lists it as retired. Acknowledgements get lost,
 saves fail in every way and the process restarts anywhere.
 */
module ForwardMeter {
  import opened Durable

  const BUDGET: nat := 2 * 128
  const MAX_REVISION: int := 0x20_0000_0000_0000 - 1
  const MAX_READING: int := 0x7FFF_FFFF_FFFF_FFFF / 4
  const MAX_FORWARD: int := 0xFF_FFFF

  datatype Forward = Forward(id: int, port: int, blocked: bool, retired: bool)

  datatype Desired = Desired(version: nat, revision: int, hash: string, forwards: seq<Forward>)

  datatype Meter = Meter(id: int, port: int, blocked: bool, retired: bool)

  datatype Reading = Reading(rx: int, tx: int, rxPackets: int, txPackets: int)

  datatype Counter = Counter(id: int, epoch: nat, reading: Reading)

  datatype Receipt = Receipt(id: nat, revision: int, hash: string, ts: int, counters: seq<Counter>)

  datatype Pending = Pending(receipt: Receipt, retired: seq<int>, acked: bool)

  /** The part of the agent's state this protocol owns; nonce 0 means no table was made yet. */
  datatype State = State(meters: seq<Meter>, pending: Option<Pending>, ackRevision: int, nonce: nat)

  // ---------------------------------------------------------------- loops

  function Ids(ms: seq<Meter>): set<int> { set i | 0 <= i < |ms| :: ms[i].id }

  function CounterIds(cs: seq<Counter>): set<int> { set i | 0 <= i < |cs| :: cs[i].id }

  function ForwardIds(fs: seq<Forward>): set<int> { set i | 0 <= i < |fs| :: fs[i].id }

  ghost predicate Distinct(ms: seq<Meter>) { forall i, j :: 0 <= i < j < |ms| ==> ms[i].id != ms[j].id }

  ghost predicate DistinctForwards(fs: seq<Forward>) { forall i, j :: 0 <= i < j < |fs| ==> fs[i].id != fs[j].id }

  function MeterOf(f: Forward): Meter { Meter(f.id, f.port, f.blocked, f.retired) }

  /** Meters for the desired forwards; a retired forward needs none once its revision is settled. */
  function Listed(fs: seq<Forward>, settled: bool): seq<Meter> {
    if fs == [] then []
    else
      var n := |fs| - 1;
      Listed(fs[..n], settled) + (if fs[n].retired && settled then [] else [MeterOf(fs[n])])
  }

  /** Remembered meters the desired state no longer mentions, kept closed. */
  function Unlisted(ms: seq<Meter>, known: set<int>): seq<Meter> {
    if ms == [] then []
    else
      var n := |ms| - 1;
      Unlisted(ms[..n], known) + (if ms[n].id in known then [] else [ms[n].(blocked := true, retired := true)])
  }

  function Wanted(s: State, ds: Desired): seq<Meter> {
    var listed := Listed(ds.forwards, s.ackRevision >= ds.revision);
    listed + Unlisted(s.meters, Ids(listed))
  }

  function Kept(ms: seq<Meter>, retired: set<int>): seq<Meter> {
    if ms == [] then []
    else
      var n := |ms| - 1;
      Kept(ms[..n], retired) + (if ms[n].id in retired then [] else [ms[n]])
  }

  function Counters(fs: seq<Forward>, read: map<int, Reading>, epoch: nat): seq<Counter>
    requires ForwardIds(fs) <= read.Keys
  {
    if fs == [] then []
    else
      var n := |fs| - 1;
      assert fs[n].id in ForwardIds(fs);
      assert ForwardIds(fs[..n]) <= ForwardIds(fs);
      Counters(fs[..n], read, epoch) + [Counter(fs[n].id, epoch, read[fs[n].id])]
  }

  function Retired(fs: seq<Forward>): seq<int> {
    if fs == [] then []
    else
      var n := |fs| - 1;
      Retired(fs[..n]) + (if fs[n].retired then [fs[n].id] else [])
  }

  function Elements(s: seq<int>): set<int> { set i | 0 <= i < |s| :: s[i] }

  lemma IdsSnoc(ms: seq<Meter>, m: Meter)
    ensures Ids(ms + [m]) == Ids(ms) + {m.id}
  {
    assert forall i :: 0 <= i < |ms| ==> (ms + [m])[i] == ms[i];
    assert (ms + [m])[|ms|] == m;
  }

  lemma IdsConcat(a: seq<Meter>, b: seq<Meter>)
    ensures Ids(a + b) == Ids(a) + Ids(b)
  {
    assert forall i :: 0 <= i < |a| ==> (a + b)[i] == a[i];
    assert forall i :: 0 <= i < |b| ==> (a + b)[|a| + i] == b[i];
  }

  lemma {:induction false} ListedIds(fs: seq<Forward>, settled: bool)
    requires DistinctForwards(fs)
    ensures Distinct(Listed(fs, settled)) && Ids(Listed(fs, settled)) <= ForwardIds(fs)
  {
    if fs != [] {
      var n := |fs| - 1;
      ListedIds(fs[..n], settled);
      IdsSnoc(Listed(fs[..n], settled), MeterOf(fs[n]));
      assert ForwardIds(fs) == ForwardIds(fs[..n]) + {fs[n].id};
      var before := Listed(fs[..n], settled);
      forall i | 0 <= i < |before|
        ensures before[i].id != fs[n].id
      {
        assert before[i].id in Ids(before);
      }
    }
  }

  /** One more identity behind distinct ones it is not among. */
  lemma DistinctSnoc(ms: seq<Meter>, m: Meter)
    requires Distinct(ms) && m.id !in Ids(ms)
    ensures Distinct(ms + [m])
  {
    forall i | 0 <= i < |ms|
      ensures ms[i].id != m.id
    {
      assert ms[i].id in Ids(ms);
    }
  }

  lemma DistinctPrefix(ms: seq<Meter>, n: nat)
    requires Distinct(ms) && n < |ms|
    ensures Distinct(ms[..n]) && ms[n].id !in Ids(ms[..n])
  {
  }

  lemma {:induction false} UnlistedIds(ms: seq<Meter>, known: set<int>)
    ensures Ids(Unlisted(ms, known)) == Ids(ms) - known
  {
    if ms != [] {
      var n := |ms| - 1;
      UnlistedIds(ms[..n], known);
      IdsSnoc(Unlisted(ms[..n], known), ms[n].(blocked := true, retired := true));
      assert ms == ms[..n] + [ms[n]];
      IdsSnoc(ms[..n], ms[n]);
      if ms[n].id in known {
        assert Unlisted(ms, known) == Unlisted(ms[..n], known);
      }
    }
  }

  lemma {:induction false} UnlistedDistinct(ms: seq<Meter>, known: set<int>)
    requires Distinct(ms)
    ensures Distinct(Unlisted(ms, known))
  {
    if ms != [] {
      var n := |ms| - 1;
      DistinctPrefix(ms, n);
      UnlistedDistinct(ms[..n], known);
      UnlistedIds(ms[..n], known);
      if ms[n].id in known {
        assert Unlisted(ms, known) == Unlisted(ms[..n], known);
      } else {
        DistinctSnoc(Unlisted(ms[..n], known), ms[n].(blocked := true, retired := true));
      }
    }
  }

  lemma {:induction false} KeptExactly(ms: seq<Meter>, retired: set<int>, m: Meter)
    ensures m in Kept(ms, retired) <==> m in ms && m.id !in retired
  {
    if ms != [] {
      var n := |ms| - 1;
      KeptExactly(ms[..n], retired, m);
      assert ms == ms[..n] + [ms[n]];
    }
  }

  lemma {:induction false} KeptIds(ms: seq<Meter>, retired: set<int>)
    ensures Ids(Kept(ms, retired)) == Ids(ms) - retired
  {
    if ms != [] {
      var n := |ms| - 1;
      KeptIds(ms[..n], retired);
      IdsSnoc(Kept(ms[..n], retired), ms[n]);
      assert ms == ms[..n] + [ms[n]];
      IdsSnoc(ms[..n], ms[n]);
      if ms[n].id in retired {
        assert Kept(ms, retired) == Kept(ms[..n], retired);
      }
    }
  }

  lemma {:induction false} KeptDistinct(ms: seq<Meter>, retired: set<int>)
    requires Distinct(ms)
    ensures Distinct(Kept(ms, retired))
  {
    if ms != [] {
      var n := |ms| - 1;
      DistinctPrefix(ms, n);
      KeptDistinct(ms[..n], retired);
      KeptIds(ms[..n], retired);
      if ms[n].id in retired {
        assert Kept(ms, retired) == Kept(ms[..n], retired);
      } else {
        DistinctSnoc(Kept(ms[..n], retired), ms[n]);
      }
    }
  }

  lemma {:induction false} CountersIds(fs: seq<Forward>, read: map<int, Reading>, epoch: nat)
    requires ForwardIds(fs) <= read.Keys
    ensures CounterIds(Counters(fs, read, epoch)) == ForwardIds(fs)
  {
    if fs != [] {
      var n := |fs| - 1;
      assert fs[n].id in ForwardIds(fs);
      assert ForwardIds(fs) == ForwardIds(fs[..n]) + {fs[n].id};
      CountersIds(fs[..n], read, epoch);
      var before := Counters(fs[..n], read, epoch);
      var all := Counters(fs, read, epoch);
      assert forall i :: 0 <= i < |before| ==> all[i] == before[i];
      assert all[|before|].id == fs[n].id;
    }
  }

  /** Each counter carries the reading of its forward, as it was read. */
  lemma {:induction false} CountersAsRead(fs: seq<Forward>, read: map<int, Reading>, epoch: nat)
    requires ForwardIds(fs) <= read.Keys
    ensures forall c :: c in Counters(fs, read, epoch) ==> c.id in read && c.reading == read[c.id] && c.epoch == epoch
  {
    if fs != [] {
      var n := |fs| - 1;
      assert ForwardIds(fs) == ForwardIds(fs[..n]) + {fs[n].id};
      CountersAsRead(fs[..n], read, epoch);
    }
  }

  /** Exactly the retired forwards are released. */
  lemma {:induction false} RetiredExactly(fs: seq<Forward>, id: int)
    ensures id in Retired(fs) <==> exists i :: 0 <= i < |fs| && fs[i].id == id && fs[i].retired
  {
    if fs != [] {
      RetiredExactly(fs[..|fs| - 1], id);
    }
  }

  lemma {:induction false} ListedExactly(fs: seq<Forward>, settled: bool, m: Meter)
    ensures m in Listed(fs, settled) <==>
      exists f :: f in fs && !(f.retired && settled) && m == Meter(f.id, f.port, f.blocked, f.retired)
  {
    if fs != [] {
      var n := |fs| - 1;
      ListedExactly(fs[..n], settled, m);
      assert fs == fs[..n] + [fs[n]];
    }
  }

  lemma {:induction false} UnlistedExactly(ms: seq<Meter>, known: set<int>, m: Meter)
    ensures m in Unlisted(ms, known) <==>
      exists o :: o in ms && o.id !in known && m == Meter(o.id, o.port, true, true)
  {
    if ms != [] {
      var n := |ms| - 1;
      UnlistedExactly(ms[..n], known, m);
      assert ms == ms[..n] + [ms[n]];
    }
  }

  /** This forward gets a meter of its own: it is not retired, or its revision is not settled yet. */
  predicate Metered(f: Forward, s: State, ds: Desired) { !f.retired || s.ackRevision < ds.revision }

  /** What is metered: the desired forwards as configured, and whatever else was remembered, closed. */
  lemma WantedExactly(s: State, ds: Desired, m: Meter)
    ensures m in Wanted(s, ds) <==>
      || (exists f :: f in ds.forwards && Metered(f, s, ds) && m == Meter(f.id, f.port, f.blocked, f.retired))
      || (exists o :: o in s.meters && (forall f :: f in ds.forwards && Metered(f, s, ds) ==> f.id != o.id)
                      && m == Meter(o.id, o.port, true, true))
  {
    var settled := s.ackRevision >= ds.revision;
    var listed := Listed(ds.forwards, settled);
    ListedExactly(ds.forwards, settled, m);
    UnlistedExactly(s.meters, Ids(listed), m);
    forall id
      ensures id in Ids(listed) <==> exists f :: f in ds.forwards && Metered(f, s, ds) && f.id == id
    {
      ListedHas(ds.forwards, settled, id);
    }
  }

  lemma {:induction false} ListedHas(fs: seq<Forward>, settled: bool, id: int)
    ensures id in Ids(Listed(fs, settled)) <==> exists f :: f in fs && (!f.retired || !settled) && f.id == id
  {
    if fs != [] {
      var n := |fs| - 1;
      ListedHas(fs[..n], settled, id);
      IdsSnoc(Listed(fs[..n], settled), MeterOf(fs[n]));
      assert fs == fs[..n] + [fs[n]];
      if fs[n].retired && settled {
        assert Listed(fs, settled) == Listed(fs[..n], settled);
      }
    }
  }

  lemma {:induction false} RetiredIds(fs: seq<Forward>)
    ensures Elements(Retired(fs)) <= ForwardIds(fs)
  {
    if fs != [] {
      var n := |fs| - 1;
      RetiredIds(fs[..n]);
      assert ForwardIds(fs) == ForwardIds(fs[..n]) + {fs[n].id};
      forall x | x in Elements(Retired(fs))
        ensures x in Elements(Retired(fs[..n])) || x == fs[n].id
      {
      }
    }
  }

  /** Preparing forgets nothing: the wanted identities are the listed and the remembered ones, each once. */
  lemma WantedRemembersAll(s: State, ds: Desired)
    requires Distinct(s.meters) && DistinctForwards(ds.forwards)
    ensures Distinct(Wanted(s, ds))
    ensures Ids(s.meters) <= Ids(Wanted(s, ds)) <= Ids(s.meters) + ForwardIds(ds.forwards)
  {
    var settled := s.ackRevision >= ds.revision;
    var listed := Listed(ds.forwards, settled);
    var rest := Unlisted(s.meters, Ids(listed));
    ListedIds(ds.forwards, settled);
    UnlistedIds(s.meters, Ids(listed));
    UnlistedDistinct(s.meters, Ids(listed));
    IdsConcat(listed, rest);
    forall i, j | 0 <= i < |listed| && 0 <= j < |rest|
      ensures listed[i].id != rest[j].id
    {
      assert listed[i].id in Ids(listed);
      assert rest[j].id in Ids(rest);
    }
  }

  method WantedMeters(s: State, ds: Desired) returns (out: seq<Meter>)
    ensures out == Wanted(s, ds)
  {
    var known: set<int> := {};
    out := [];
    for i := 0 to |ds.forwards|
      invariant out == Listed(ds.forwards[..i], s.ackRevision >= ds.revision)
      invariant known == Ids(out)
    {
      var f := ds.forwards[i];
      assert ds.forwards[..i + 1][..i] == ds.forwards[..i];
      if !(f.retired && s.ackRevision >= ds.revision) {
        IdsSnoc(out, MeterOf(f));
        known := known + {f.id};
        out := out + [MeterOf(f)];
      }
    }
    assert ds.forwards[..|ds.forwards|] == ds.forwards;
    ghost var listed := out;
    for i := 0 to |s.meters|
      invariant out == listed + Unlisted(s.meters[..i], known)
    {
      assert s.meters[..i + 1][..i] == s.meters[..i];
      if s.meters[i].id !in known {
        out := out + [s.meters[i].(blocked := true, retired := true)];
      }
    }
    assert s.meters[..|s.meters|] == s.meters;
  }

  method KeepMeters(ms: seq<Meter>, retired: set<int>) returns (out: seq<Meter>)
    ensures out == Kept(ms, retired)
  {
    out := [];
    for i := 0 to |ms|
      invariant out == Kept(ms[..i], retired)
    {
      assert ms[..i + 1][..i] == ms[..i];
      if ms[i].id !in retired {
        out := out + [ms[i]];
      }
    }
    assert ms[..|ms|] == ms;
  }

  // ---------------------------------------------------------------- the receipt

  predicate ValidReading(r: Reading) {
    && 0 <= r.rx <= MAX_READING && 0 <= r.tx <= MAX_READING
    && 0 <= r.rxPackets <= MAX_READING && 0 <= r.txPackets <= MAX_READING
  }

  predicate ValidCounter(c: Counter) { 1 <= c.id <= MAX_FORWARD && ValidReading(c.reading) }

  ghost predicate ValidReceipt(r: Receipt) {
    && 1 <= r.revision <= MAX_REVISION && IsHex32(r.hash) && r.ts != 0 && |r.counters| <= BUDGET
    && (forall i :: 0 <= i < |r.counters| ==> ValidCounter(r.counters[i]))
    && (forall i, j :: 0 <= i < j < |r.counters| ==> r.counters[i].id != r.counters[j].id)
  }

  method ValidateReceipt(r: Receipt) returns (ok: bool)
    ensures ok <==> ValidReceipt(r)
    ensures ok <==>
      && 1 <= r.revision < 0x20_0000_0000_0000 && IsHex32(r.hash) && r.ts != 0 && |r.counters| <= 256
      && forall i :: 0 <= i < |r.counters| ==>
           var c := r.counters[i];
           && 1 <= c.id <= 0xFF_FFFF && (forall k :: 0 <= k < i ==> r.counters[k].id != c.id)
           && 0 <= c.reading.rx <= MAX_READING && 0 <= c.reading.tx <= MAX_READING
           && 0 <= c.reading.rxPackets <= MAX_READING && 0 <= c.reading.txPackets <= MAX_READING
  {
    if r.revision < 1 || r.revision > MAX_REVISION || !IsHex32(r.hash) || r.ts == 0 || |r.counters| > BUDGET {
      return false;
    }
    var seen: set<int> := {};
    for i := 0 to |r.counters|
      invariant seen == CounterIds(r.counters[..i])
      invariant forall k :: 0 <= k < i ==> ValidCounter(r.counters[k])
      invariant forall k, l :: 0 <= k < l < i ==> r.counters[k].id != r.counters[l].id
    {
      assert CounterIds(r.counters[..i + 1]) == CounterIds(r.counters[..i]) + {r.counters[i].id};
      if !ValidCounter(r.counters[i]) || r.counters[i].id in seen {
        return false;
      }
      seen := seen + {r.counters[i].id};
    }
    return true;
  }

  /** Every meter has a usable reading, within the budget. */
  predicate Measured(s: State, read: map<int, Reading>) {
    && |s.meters| <= BUDGET
    && forall i :: 0 <= i < |s.meters| ==>
         s.meters[i].id in read && ValidCounter(Counter(s.meters[i].id, s.nonce, read[s.meters[i].id]))
  }

  /** Every meter was read, and every desired forward has a meter. */
  predicate Complete(s: State, ds: Desired, read: map<int, Reading>) {
    Measured(s, read) && ForwardIds(ds.forwards) <= Ids(s.meters)
  }

  lemma MeasuredKeys(s: State, read: map<int, Reading>)
    requires Measured(s, read)
    ensures Ids(s.meters) <= read.Keys
  {
  }

  /** forwardCounters: a missing or unusable reading of any meter fails them all. */
  method CheckReadings(s: State, read: map<int, Reading>) returns (ok: bool)
    ensures ok <==> Measured(s, read)
    ensures ok <==> |s.meters| <= 256 && forall m :: m in s.meters ==>
      && 1 <= m.id <= 0xFF_FFFF && m.id in read
      && 0 <= read[m.id].rx <= MAX_READING && 0 <= read[m.id].tx <= MAX_READING
      && 0 <= read[m.id].rxPackets <= MAX_READING && 0 <= read[m.id].txPackets <= MAX_READING
  {
    if |s.meters| > BUDGET {
      return false;
    }
    for i := 0 to |s.meters|
      invariant forall k :: 0 <= k < i ==>
        s.meters[k].id in read && ValidCounter(Counter(s.meters[k].id, s.nonce, read[s.meters[k].id]))
    {
      var id := s.meters[i].id;
      if id !in read || !ValidCounter(Counter(id, s.nonce, read[id])) {
        return false;
      }
    }
    return true;
  }

  function NextPending(s: State, ds: Desired, read: map<int, Reading>, id: nat, ts: int): Pending
    requires Complete(s, ds, read)
  {
    MeasuredKeys(s, read);
    Pending(Receipt(id, ds.revision, ds.hash, ts, Counters(ds.forwards, read, s.nonce)), Retired(ds.forwards), false)
  }

  method CollectReceipt(s: State, ds: Desired, read: map<int, Reading>, id: nat, ts: int) returns (p: Option<Pending>)
    ensures p.Some? <==> Complete(s, ds, read)
    ensures p.Some? ==> p.value == NextPending(s, ds, read, id, ts)
  {
    var ok := CheckReadings(s, read);
    if !ok {
      return None;
    }
    MeasuredKeys(s, read);
    var metered := Ids(s.meters);
    var counters: seq<Counter>, retired: seq<int> := [], [];
    for i := 0 to |ds.forwards|
      invariant ForwardIds(ds.forwards[..i]) <= metered
      invariant counters == Counters(ds.forwards[..i], read, s.nonce)
      invariant retired == Retired(ds.forwards[..i])
    {
      var f := ds.forwards[i];
      assert f.id in ForwardIds(ds.forwards);
      assert ds.forwards[..i + 1][..i] == ds.forwards[..i];
      if f.id !in metered {
        return None;
      }
      assert ForwardIds(ds.forwards[..i + 1]) == ForwardIds(ds.forwards[..i]) + {f.id};
      counters := counters + [Counter(f.id, s.nonce, read[f.id])];
      if f.retired {
        retired := retired + [f.id];
      }
    }
    assert ds.forwards[..|ds.forwards|] == ds.forwards;
    return Some(Pending(Receipt(id, ds.revision, ds.hash, ts, counters), retired, false));
  }

  // ---------------------------------------------------------------- the protocol

  /** A frozen receipt and the forwards it releases. */
  datatype Frozen = Frozen(receipt: Receipt, retired: seq<int>)

  function Freeze(p: Pending): Frozen { Frozen(p.receipt, p.retired) }

  /** Memory, state file, random values drawn so far, and what the outside saw. */
  datatype World = World(mem: State, disk: State, issued: nat, sent: set<Frozen>, acked: set<Frozen>, pruned: set<Frozen>)

  function Restarted(w: World): World { w.(mem := w.disk) }

  /** Memory keeps its content whether or not the save works. */
  function SaveAll(w: World, save: Save): World {
    var v := w.(disk := File(w.mem, w.disk, save));
    if save.Died() then Restarted(v) else v
  }

  /** Memory takes the new content only if the save works. */
  function Commit(w: World, next: State, save: Save): World {
    var v := w.(disk := File(next, w.disk, save));
    if save.Died() then Restarted(v) else if save.Saved? then v.(mem := next) else v
  }

  /** What each way a save can end leaves in memory and in the file. */
  lemma SaveOutcomes(w: World, next: State, save: Save)
    ensures var v := Commit(w, next, save);
            && v.mem == (match save case Saved => next case DiedAfter => next case DiedBefore => w.disk case _ => w.mem)
            && v.disk == (match save case NotWritten => w.disk case DiedBefore => w.disk case _ => next)
            && v == w.(mem := v.mem, disk := v.disk)
    ensures SaveAll(w, save) == Commit(w, w.mem, save)
  {
  }

  function Renewed(w: World): World {
    w.(issued := w.issued + 1, mem := w.mem.(nonce := w.issued + 1))
  }

  /** prepareForwardMeters behind the gate of convergeDesired: nothing is prepared while a receipt is pending. */
  function Prepare(w: World, ds: Desired, tableExists: bool, save: Save): World {
    var wanted := Wanted(w.mem, ds);
    if w.mem.pending.Some? || (ds.version == 0 && w.mem.meters == []) || |wanted| > BUDGET then w
    else
      var v := w.(mem := w.mem.(meters := wanted));
      SaveAll(if !tableExists || v.mem.nonce == 0 then Renewed(v) else v, save)
  }

  /** freezeForwardReceipt; the receipt stays in memory even when its save fails. */
  ghost function FreezeReceipt(w: World, ds: Desired, read: Option<map<int, Reading>>, ts: int, save: Save): World {
    if |ds.forwards| == 0 || w.mem.ackRevision >= ds.revision || w.mem.pending.Some? then w
    else if read.None? || !Complete(w.mem, ds, read.value) then w
    else
      var p := NextPending(w.mem, ds, read.value, w.issued, ts);
      if !ValidReceipt(p.receipt) then w.(issued := w.issued + 1)
      else SaveAll(w.(issued := w.issued + 1, mem := w.mem.(pending := Some(p))), save)
  }

  /** The controller's answer names the receipt it acknowledges. */
  datatype Reply = Lost | Answer(ack: nat) | DiedWaiting

  predicate Confirms(reply: Reply, p: Pending) { reply.Answer? && reply.ack == p.receipt.id }

  /** The host half of the clean-up: the configuration lock, the table, and pruning. */
  datatype Host = Busy | Ready(tableExists: bool, nonceSave: Save, pruned: bool)

  function Sent(w: World, p: Pending): World { w.(sent := w.sent + {Freeze(p)}) }

  function Exchange(w: World, p: Pending, reply: Reply, save: Save): World {
    var s := Sent(w, p);
    if reply.DiedWaiting? then Restarted(s)
    else if Confirms(reply, p) then Commit(s.(acked := s.acked + {Freeze(p)}), w.mem.(pending := Some(p.(acked := true))), save)
    else s
  }

  function Forget(s: State, p: Pending): State {
    s.(meters := Kept(s.meters, Elements(p.retired)), pending := None, ackRevision := p.receipt.revision)
  }

  function Table(w: World, host: Host): World
    requires host.Ready?
  {
    if host.tableExists then w else SaveAll(Renewed(w), host.nonceSave)
  }

  /** The table was there or its renewed nonce was saved, and pruning worked. */
  predicate PruneDone(host: Host) {
    host.Ready? && (host.tableExists || host.nonceSave.Saved?) && host.pruned
  }

  function Prune(w: World, p: Pending, host: Host): World {
    if p.retired == [] || host.Busy? then w
    else
      var t := Table(w, host);
      if host.tableExists || host.nonceSave.Saved? then t.(pruned := t.pruned + {Freeze(p)}) else t
  }

  /** Everything after a durable acknowledgement. */
  function CleanUp(w: World, p: Pending, host: Host, save: Save): World {
    var c := Prune(w, p, host);
    if p.retired == [] || PruneDone(host) then Commit(c, Forget(c.mem, p), save) else c
  }

  /** flushForwardReceipt. */
  function Flush(w: World, reply: Reply, ackSave: Save, host: Host, save: Save): World {
    if w.mem.pending.None? then w
    else
      var p := w.mem.pending.value;
      if p.acked then CleanUp(w, p, host, save)
      else
        var a := Exchange(w, p, reply, ackSave);
        if Confirms(reply, p) && ackSave.Saved? then CleanUp(a, p.(acked := true), host, save) else a
  }

  datatype Event =
    | DoPrepare(ds: Desired, tableExists: bool, prepareSave: Save)
    | DoFreeze(ds: Desired, read: Option<map<int, Reading>>, ts: int, freezeSave: Save)
    | DoFlush(reply: Reply, ackSave: Save, host: Host, lastSave: Save)
    | DoSave(save: Save)
    | DoRestart

  /** Desired states reach the protocol only after their forward numbers were checked to be unique. */
  ghost predicate Admitted(e: Event) {
    match e
    case DoPrepare(ds, _, _) => DistinctForwards(ds.forwards)
    case DoFreeze(ds, _, _, _) => DistinctForwards(ds.forwards)
    case _ => true
  }

  ghost function Step(w: World, e: Event): World {
    match e
    case DoPrepare(ds, tableExists, save) => Prepare(w, ds, tableExists, save)
    case DoFreeze(ds, read, ts, save) => FreezeReceipt(w, ds, read, ts, save)
    case DoFlush(reply, ackSave, host, save) => Flush(w, reply, ackSave, host, save)
    case DoSave(save) => SaveAll(w, save)
    case DoRestart => Restarted(w)
  }

  function Enrolled(): World {
    var s := State([], None, 0, 0);
    World(s, s, 0, {}, {}, {})
  }

  ghost function Run(events: seq<Event>): World {
    if events == [] then Enrolled() else Step(Run(events[..|events| - 1]), events[|events| - 1])
  }

  // ---------------------------------------------------------------- safety

  ghost predicate SoundPending(p: Pending, ackRevision: int, w: World) {
    && p.receipt.revision > ackRevision
    && p.receipt.id < w.issued
    && Elements(p.retired) <= CounterIds(p.receipt.counters)
    && (p.acked ==> Freeze(p) in w.acked)
    && (forall f :: f in w.sent && f.receipt.id == p.receipt.id ==> f == Freeze(p))
  }

  ghost predicate Sound(s: State, w: World) {
    Distinct(s.meters) && (s.pending.Some? ==> SoundPending(s.pending.value, s.ackRevision, w))
  }

  /** How far the file may be from memory. */
  ghost predicate Aligned(mem: State, disk: State) {
    && Ids(disk.meters) <= Ids(mem.meters)
    && (disk.pending.Some? ==> mem.pending.Some? && Freeze(disk.pending.value) == Freeze(mem.pending.value))
    && (disk.ackRevision == mem.ackRevision ||
        (mem.pending.Some? && mem.pending.value.acked && disk.pending.None? &&
         disk.ackRevision == mem.pending.value.receipt.revision))
  }

  ghost predicate Outside(w: World) {
    && w.pruned <= w.acked <= w.sent
    && (forall f :: f in w.sent ==> f.receipt.id < w.issued && Elements(f.retired) <= CounterIds(f.receipt.counters))
    && (forall f, g :: f in w.sent && g in w.sent && f.receipt.id == g.receipt.id ==> f == g)
  }

  ghost predicate Inv(w: World) {
    Sound(w.mem, w) && Sound(w.disk, w) && Aligned(w.mem, w.disk) && Outside(w)
  }

  lemma SaveAllKeeps(w: World, save: Save)
    requires Inv(w)
    ensures Inv(SaveAll(w, save))
  {
  }

  /** Moving to a sound next state is safe however the save ends. */
  lemma CommitKeeps(w: World, next: State, save: Save)
    requires Inv(w) && Sound(next, w) && Aligned(next, next) && Aligned(w.mem, next)
    ensures Inv(Commit(w, next, save))
  {
  }

  lemma RenewedKeeps(w: World)
    requires Inv(w)
    ensures Inv(Renewed(w))
  {
  }

  lemma PrepareKeeps(w: World, ds: Desired, tableExists: bool, save: Save)
    requires Inv(w) && DistinctForwards(ds.forwards)
    ensures Inv(Prepare(w, ds, tableExists, save))
  {
    WantedRemembersAll(w.mem, ds);
    var v := w.(mem := w.mem.(meters := Wanted(w.mem, ds)));
    if w.mem.pending.None? {
      assert Inv(v);
      RenewedKeeps(v);
      SaveAllKeeps(v, save);
      SaveAllKeeps(Renewed(v), save);
    }
  }

  lemma FreezeKeeps(w: World, ds: Desired, read: Option<map<int, Reading>>, ts: int, save: Save)
    requires Inv(w) && DistinctForwards(ds.forwards)
    ensures Inv(FreezeReceipt(w, ds, read, ts, save))
  {
    if read.Some? && Complete(w.mem, ds, read.value) && w.mem.ackRevision < ds.revision && w.mem.pending.None? {
      var p := NextPending(w.mem, ds, read.value, w.issued, ts);
      CountersIds(ds.forwards, read.value, w.mem.nonce);
      RetiredIds(ds.forwards);
      FrozenKeeps(w, p);
      SaveAllKeeps(w.(issued := w.issued + 1, mem := w.mem.(pending := Some(p))), save);
    }
  }

  /** A fresh receipt may become the pending one. */
  lemma FrozenKeeps(w: World, p: Pending)
    requires Inv(w) && w.mem.pending.None? && !p.acked && p.receipt.id == w.issued
    requires p.receipt.revision > w.mem.ackRevision && Elements(p.retired) <= CounterIds(p.receipt.counters)
    ensures Inv(w.(issued := w.issued + 1, mem := w.mem.(pending := Some(p))))
    ensures Inv(w.(issued := w.issued + 1))
  {
  }

  lemma SentKeeps(w: World, p: Pending)
    requires Inv(w) && w.mem.pending == Some(p)
    ensures Inv(Sent(w, p))
  {
  }

  lemma ExchangeKeeps(w: World, p: Pending, reply: Reply, save: Save)
    requires Inv(w) && w.mem.pending == Some(p)
    ensures Inv(Exchange(w, p, reply, save))
    ensures Confirms(reply, p) && save.Saved? ==> Exchange(w, p, reply, save).mem.pending == Some(p.(acked := true))
  {
    SentKeeps(w, p);
    if Confirms(reply, p) {
      var s := Sent(w, p);
      var a := s.(acked := s.acked + {Freeze(p)});
      assert Inv(a);
      CommitKeeps(a, w.mem.(pending := Some(p.(acked := true))), save);
    }
  }

  lemma PruneKeeps(w: World, p: Pending, host: Host)
    requires Inv(w) && w.mem.pending == Some(p) && p.acked
    ensures Inv(Prune(w, p, host))
    ensures PruneDone(host) || p.retired == [] ==>
      var c := Prune(w, p, host);
      c.mem.pending == Some(p) && c.mem.meters == w.mem.meters
  {
    RenewedKeeps(w);
    if host.Ready? {
      SaveAllKeeps(Renewed(w), host.nonceSave);
    }
  }

  lemma CleanUpKeeps(w: World, p: Pending, host: Host, save: Save)
    requires Inv(w) && w.mem.pending == Some(p) && p.acked
    ensures Inv(CleanUp(w, p, host, save))
  {
    PruneKeeps(w, p, host);
    var c := Prune(w, p, host);
    KeptIds(c.mem.meters, Elements(p.retired));
    KeptDistinct(c.mem.meters, Elements(p.retired));
    if p.retired == [] || PruneDone(host) {
      CommitKeeps(c, Forget(c.mem, p), save);
    }
  }

  lemma FlushKeeps(w: World, reply: Reply, ackSave: Save, host: Host, save: Save)
    requires Inv(w)
    ensures Inv(Flush(w, reply, ackSave, host, save))
  {
    if w.mem.pending.Some? {
      var p := w.mem.pending.value;
      if p.acked {
        CleanUpKeeps(w, p, host, save);
      } else {
        ExchangeKeeps(w, p, reply, ackSave);
        if Confirms(reply, p) && ackSave.Saved? {
          CleanUpKeeps(Exchange(w, p, reply, ackSave), p.(acked := true), host, save);
        }
      }
    }
  }

  lemma StepKeeps(w: World, e: Event)
    requires Inv(w) && Admitted(e)
    ensures Inv(Step(w, e))
  {
    match e
    case DoPrepare(ds, tableExists, save) => PrepareKeeps(w, ds, tableExists, save);
    case DoFreeze(ds, read, ts, save) => FreezeKeeps(w, ds, read, ts, save);
    case DoFlush(reply, ackSave, host, save) => FlushKeeps(w, reply, ackSave, host, save);
    case DoSave(save) => SaveAllKeeps(w, save);
    case DoRestart =>
  }

  lemma {:induction false} RunKeeps(events: seq<Event>)
    requires forall i :: 0 <= i < |events| ==> Admitted(events[i])
    ensures Inv(Run(events))
  {
    if events != [] {
      RunKeeps(events[..|events| - 1]);
      StepKeeps(Run(events[..|events| - 1]), events[|events| - 1]);
    }
  }

  // ---------------------------------------------------------------- what every run promises

  /**
   A receipt counts as acknowledged exactly when an answer names its own number. Any
   other answer changes nothing in memory or file.
   */
  lemma AcknowledgedIff(w: World, p: Pending, reply: Reply, save: Save)
    requires Freeze(p) !in w.acked
    ensures var v := Exchange(w, p, reply, save);
            && (Freeze(p) in v.acked <==> reply.Answer? && reply.ack == p.receipt.id)
            && (Freeze(p) !in v.acked && !reply.DiedWaiting? ==> v.mem == w.mem && v.disk == w.disk)
            && (reply.DiedWaiting? ==> v.mem == w.disk && v.disk == w.disk)
            && (Freeze(p) in v.acked && save.Saved? ==> v.mem == w.mem.(pending := Some(p.(acked := true))) && v.disk == v.mem)
  {
  }

  /** What the outside may come to see: everything sent, and everything that may be sent. */
  ghost function Known(w: World): set<Frozen> {
    w.sent + (if w.mem.pending.Some? then {Freeze(w.mem.pending.value)} else {})
    + (if w.disk.pending.Some? then {Freeze(w.disk.pending.value)} else {})
  }

  /** This step froze the receipt, from these readings of this configuration. */
  ghost predicate FrozeNow(w: World, e: Event, f: Frozen) {
    && e.DoFreeze? && e.read.Some? && f.receipt.id == w.issued && f.receipt.ts == e.ts
    && f.receipt.revision == e.ds.revision && f.receipt.hash == e.ds.hash
    && (forall c :: c in f.receipt.counters ==> c.id in e.read.value && c.reading == e.read.value[c.id] && c.epoch == w.mem.nonce)
    && CounterIds(f.receipt.counters) == ForwardIds(e.ds.forwards)
    && (forall id :: id in f.retired <==> exists i :: 0 <= i < |e.ds.forwards| && e.ds.forwards[i].id == id && e.ds.forwards[i].retired)
  }

  lemma FreezeKnown(w: World, e: Event, f: Frozen)
    requires e.DoFreeze? && f in Known(Step(w, e)) && f !in Known(w)
    ensures FrozeNow(w, e, f)
  {
    MeasuredKeys(w.mem, e.read.value);
    CountersAsRead(e.ds.forwards, e.read.value, w.mem.nonce);
    CountersIds(e.ds.forwards, e.read.value, w.mem.nonce);
    forall id
      ensures id in Retired(e.ds.forwards) <==> exists i :: 0 <= i < |e.ds.forwards| && e.ds.forwards[i].id == id && e.ds.forwards[i].retired
    {
      RetiredExactly(e.ds.forwards, id);
    }
  }

  lemma CleanUpKnown(w: World, p: Pending, host: Host, save: Save)
    ensures Known(CleanUp(w, p, host, save)) <= Known(w)
  {
  }

  lemma FlushKnown(w: World, reply: Reply, ackSave: Save, host: Host, save: Save)
    ensures Known(Flush(w, reply, ackSave, host, save)) <= Known(w)
  {
    if w.mem.pending.Some? {
      var p := w.mem.pending.value;
      if p.acked {
        CleanUpKnown(w, p, host, save);
      } else {
        ExchangeKnown(w, p, reply, ackSave);
        CleanUpKnown(Exchange(w, p, reply, ackSave), p.(acked := true), host, save);
      }
    }
  }

  lemma ExchangeKnown(w: World, p: Pending, reply: Reply, save: Save)
    requires w.mem.pending == Some(p)
    ensures Known(Exchange(w, p, reply, save)) <= Known(w)
  {
  }

  lemma StepKnown(w: World, e: Event, f: Frozen)
    requires f in Known(Step(w, e)) && f !in Known(w)
    ensures FrozeNow(w, e, f)
  {
    match e
    case DoFreeze(_, _, _, _) => FreezeKnown(w, e, f);
    case DoFlush(reply, ackSave, host, save) => FlushKnown(w, reply, ackSave, host, save);
    case DoPrepare(_, _, _) =>
    case DoSave(_) =>
    case DoRestart =>
  }

  /**
   Over every run: a receipt that was sent, or may still be, carries the readings that
   were taken when its number was drawn, for exactly the forwards of that configuration,
   and releases exactly the retired ones; `k` is that step.
   */
  lemma {:induction false} ReceiptsCarryTheirReadings(events: seq<Event>, f: Frozen) returns (k: nat)
    requires f in Known(Run(events))
    ensures k < |events| && FrozeNow(Run(events[..k]), events[k], f)
  {
    var n := |events| - 1;
    if f in Known(Run(events[..n])) {
      k := ReceiptsCarryTheirReadings(events[..n], f);
      assert events[..n][..k] == events[..k];
    } else {
      k := n;
      StepKnown(Run(events[..n]), events[n], f);
    }
  }

  /** This step completes a receipt the controller acknowledged, which retires the forward and carries its counter. */
  ghost predicate Settles(w: World, e: Event, v: World, id: int) {
    && e.DoFlush? && w.mem.pending.Some?
    && var p := w.mem.pending.value;
       Freeze(p) in v.acked && id in Elements(p.retired) && id in CounterIds(p.receipt.counters)
  }

  lemma CleanUpReleases(w: World, p: Pending, host: Host, save: Save, id: int)
    requires Inv(w) && w.mem.pending == Some(p) && p.acked
    requires id in Ids(w.disk.meters) && id !in Ids(CleanUp(w, p, host, save).disk.meters)
    ensures id in Elements(p.retired) && Freeze(p) in CleanUp(w, p, host, save).acked
  {
    PruneKeeps(w, p, host);
    KeptIds(w.mem.meters, Elements(p.retired));
    assert id in Ids(w.mem.meters);
  }

  lemma FlushReleases(w: World, reply: Reply, ackSave: Save, host: Host, save: Save, id: int)
    requires Inv(w)
    requires id in Ids(w.disk.meters) && id !in Ids(Flush(w, reply, ackSave, host, save).disk.meters)
    ensures w.mem.pending.Some?
    ensures id in Elements(w.mem.pending.value.retired)
    ensures Freeze(w.mem.pending.value) in Flush(w, reply, ackSave, host, save).acked
  {
    var p := w.mem.pending.value;
    if p.acked {
      CleanUpReleases(w, p, host, save, id);
    } else {
      ExchangeKeeps(w, p, reply, ackSave);
      CleanUpReleases(Exchange(w, p, reply, ackSave), p.(acked := true), host, save, id);
    }
  }

  lemma StepReleases(w: World, e: Event, id: int)
    requires Inv(w) && Admitted(e)
    requires id in Ids(w.disk.meters) && id !in Ids(Step(w, e).disk.meters)
    ensures Settles(w, e, Step(w, e), id)
  {
    match e
    case DoPrepare(ds, tableExists, save) => WantedRemembersAll(w.mem, ds);
    case DoFlush(reply, ackSave, host, save) => FlushReleases(w, reply, ackSave, host, save, id);
    case DoFreeze(_, _, _, _) =>
    case DoSave(_) =>
    case DoRestart =>
  }

  lemma RunStep(events: seq<Event>, k: nat)
    requires forall n :: 0 <= n < |events| ==> Admitted(events[n])
    requires k < |events|
    ensures Inv(Run(events[..k])) && Run(events[..k + 1]) == Step(Run(events[..k]), events[k])
  {
    assert events[..k + 1][..k] == events[..k];
    RunKeeps(events[..k]);
  }

  /** After the first `i` events the file remembers the forward. */
  ghost predicate Remembered(events: seq<Event>, i: nat, id: int)
    requires i <= |events|
  {
    id in Ids(Run(events[..i]).disk.meters)
  }

  /** Event `k` of the run settles the forward. */
  ghost predicate SettledBy(events: seq<Event>, k: nat, id: int)
    requires k < |events|
  {
    Settles(Run(events[..k]), events[k], Run(events[..k + 1]), id)
  }

  lemma ForgottenHere(events: seq<Event>, k: nat, id: int)
    requires forall n :: 0 <= n < |events| ==> Admitted(events[n])
    requires k < |events| && Remembered(events, k, id) && !Remembered(events, k + 1, id)
    ensures SettledBy(events, k, id)
  {
    RunStep(events, k);
    StepReleases(Run(events[..k]), events[k], id);
  }

  /**
   A forward once in the state file leaves it only in a step that completes an
   acknowledged receipt retiring it with its counter; `k` is that step.
   */
  lemma {:induction false} RememberedUntilSettled(events: seq<Event>, i: nat, j: nat, id: int) returns (k: nat)
    requires forall n :: 0 <= n < |events| ==> Admitted(events[n])
    requires i <= j <= |events| && Remembered(events, i, id) && !Remembered(events, j, id)
    ensures i <= k < j && SettledBy(events, k, id)
  {
    if Remembered(events, j - 1, id) {
      k := j - 1;
      ForgottenHere(events, k, id);
    } else {
      k := RememberedUntilSettled(events, i, j - 1, id);
    }
  }

  /** A flush that gets all the way through. */
  predicate Completes(w: World, e: Event) {
    && e.DoFlush? && w.mem.pending.Some? && e.lastSave.Saved?
    && (w.mem.pending.value.acked || (Confirms(e.reply, w.mem.pending.value) && e.ackSave.Saved?))
    && (w.mem.pending.value.retired == [] || PruneDone(e.host))
  }

  lemma CleanUpAdvances(w: World, p: Pending, host: Host, save: Save)
    requires Inv(w) && w.mem.pending == Some(p) && p.acked
    ensures CleanUp(w, p, host, save).mem.ackRevision in {w.mem.ackRevision, p.receipt.revision}
    ensures save.Saved? && (p.retired == [] || PruneDone(host)) ==>
      var v := CleanUp(w, p, host, save);
      v.mem.ackRevision == p.receipt.revision && v.mem.pending.None? && v.disk == v.mem
  {
    PruneKeeps(w, p, host);
  }

  /** Exactly when a flush that nothing kills completes the pending receipt. */
  lemma CompletesIff(w: World, reply: Reply, ackSave: Save, host: Host, save: Save)
    requires w.mem.pending.Some? && !reply.DiedWaiting? && !ackSave.Died() && !save.Died()
    requires host.Ready? ==> !host.nonceSave.Died()
    ensures var p := w.mem.pending.value;
            Step(w, DoFlush(reply, ackSave, host, save)).mem.pending.None? <==>
              && (p.acked || (reply == Answer(p.receipt.id) && ackSave.Saved?))
              && (p.retired == [] || (host.Ready? && (host.tableExists || host.nonceSave.Saved?) && host.pruned))
              && save.Saved?
    ensures Completes(w, DoFlush(reply, ackSave, host, save)) <==> Step(w, DoFlush(reply, ackSave, host, save)).mem.pending.None?
  {
  }

  /** A completed clean-up forgets exactly the meters the receipt retires. */
  lemma CleanUpForgets(w: World, p: Pending, host: Host, save: Save, m: Meter)
    requires save.Saved? && (p.retired == [] || PruneDone(host))
    ensures m in CleanUp(w, p, host, save).mem.meters <==> m in w.mem.meters && m.id !in p.retired
  {
    KeptExactly(w.mem.meters, Elements(p.retired), m);
  }

  lemma CompletionForgets(w: World, e: Event, m: Meter)
    requires Completes(w, e)
    ensures m in Step(w, e).mem.meters <==> m in w.mem.meters && m.id !in w.mem.pending.value.retired
  {
    var p := w.mem.pending.value;
    if p.acked {
      CleanUpForgets(w, p, e.host, e.lastSave, m);
    } else {
      CleanUpForgets(Exchange(w, p, e.reply, e.ackSave), p.(acked := true), e.host, e.lastSave, m);
    }
  }

  lemma StepAdvances(w: World, e: Event)
    requires Inv(w) && Admitted(e)
    ensures w.mem.ackRevision <= Step(w, e).mem.ackRevision
    ensures Completes(w, e) ==>
      var v := Step(w, e);
      v.mem.ackRevision == w.mem.pending.value.receipt.revision > w.mem.ackRevision && v.mem.pending.None? && v.disk == v.mem
  {
    if e.DoFlush? && w.mem.pending.Some? {
      var p := w.mem.pending.value;
      if p.acked {
        CleanUpAdvances(w, p, e.host, e.lastSave);
      } else {
        ExchangeKeeps(w, p, e.reply, e.ackSave);
        if Confirms(e.reply, p) && e.ackSave.Saved? {
          CleanUpAdvances(Exchange(w, p, e.reply, e.ackSave), p.(acked := true), e.host, e.lastSave);
        }
      }
    }
  }

  /** The acknowledged revision after the first `i` events. */
  ghost function AckAt(events: seq<Event>, i: nat): int
    requires i <= |events|
  {
    Run(events[..i]).mem.ackRevision
  }

  ghost predicate CompletedAt(events: seq<Event>, k: nat)
    requires k < |events|
  {
    Completes(Run(events[..k]), events[k])
  }

  lemma AckStep(events: seq<Event>, k: nat)
    requires forall n :: 0 <= n < |events| ==> Admitted(events[n])
    requires k < |events|
    ensures AckAt(events, k) <= AckAt(events, k + 1)
    ensures CompletedAt(events, k) ==> AckAt(events, k) < AckAt(events, k + 1)
  {
    RunStep(events, k);
    StepAdvances(Run(events[..k]), events[k]);
  }

  /** The acknowledged revision never falls, restarts included, and completing a receipt raises it. */
  lemma {:induction false} AcknowledgedRevisionGrows(events: seq<Event>, i: nat, j: nat)
    requires forall n :: 0 <= n < |events| ==> Admitted(events[n])
    requires i <= j <= |events|
    ensures AckAt(events, i) <= AckAt(events, j)
    ensures forall k :: i <= k < j && CompletedAt(events, k) ==> AckAt(events, i) < AckAt(events, j)
  {
    if i < j {
      AcknowledgedRevisionGrows(events, i, j - 1);
      AckStep(events, j - 1);
    }
  }

  /**
   In every reachable state identities are distinct, a receipt number stands for one
   receipt only, host counters are pruned only behind an acknowledged receipt that
   carries them, and the file holds no forward that memory has forgotten.
   */
  lemma MeteringSafe(events: seq<Event>)
    requires forall n :: 0 <= n < |events| ==> Admitted(events[n])
    ensures var w := Run(events);
            && Distinct(w.mem.meters) && Distinct(w.disk.meters)
            && Ids(w.disk.meters) <= Ids(w.mem.meters)
            && w.pruned <= w.acked <= w.sent
            && (forall f :: f in w.sent ==> Elements(f.retired) <= CounterIds(f.receipt.counters))
            && (forall f, g :: f in w.sent && g in w.sent && f.receipt.id == g.receipt.id ==> f == g)
            && (w.mem.pending.Some? ==> w.mem.pending.value.receipt.revision > w.mem.ackRevision)
  {
    RunKeeps(events);
  }

  /** The step writes memory to the file and does not get as far as writing a completed receipt over it. */
  predicate WritesOld(w: World, e: Event) {
    match e
    case DoSave(save) => save.Written()
    case DoFlush(_, _, host, last) =>
      && w.mem.pending.Some? && w.mem.pending.value.retired != []
      && host.Ready? && !host.tableExists && host.nonceSave.Written()
      && !(host.nonceSave.Saved? && host.pruned && last.Written())
    case _ => false
  }

  lemma CleanUpStores(w: World, p: Pending, host: Host, save: Save)
    requires Inv(w) && w.mem.pending == Some(p) && p.acked
    ensures var v := CleanUp(w, p, host, save);
            v.disk.ackRevision ==
              if (p.retired == [] || PruneDone(host)) && save.Written() then p.receipt.revision
              else if p.retired != [] && host.Ready? && !host.tableExists && host.nonceSave.Written() then w.mem.ackRevision
              else w.disk.ackRevision
  {
  }

  lemma ExchangeStores(w: World, p: Pending, reply: Reply, save: Save)
    requires Inv(w) && w.mem.pending == Some(p) && !p.acked
    ensures Exchange(w, p, reply, save).disk.ackRevision == w.disk.ackRevision == w.mem.ackRevision
  {
  }

  /** A flush that has still to exchange finds the file no further than memory, so it cannot lower it. */
  lemma UnackedFlushKeepsStored(w: World, e: Event)
    requires Inv(w) && e.DoFlush? && w.mem.pending.Some? && !w.mem.pending.value.acked
    ensures Step(w, e).disk.ackRevision >= w.disk.ackRevision == w.mem.ackRevision
  {
    var p := w.mem.pending.value;
    ExchangeKeeps(w, p, e.reply, e.ackSave);
    ExchangeStores(w, p, e.reply, e.ackSave);
    if Confirms(e.reply, p) && e.ackSave.Saved? {
      CleanUpStores(Exchange(w, p, e.reply, e.ackSave), p.(acked := true), e.host, e.lastSave);
    }
  }

  /**
   The number in the file alone is not monotone, and this is exactly when it falls: the
   file is ahead of memory, because it already holds a completed receipt whose save
   reported an error, and the step writes the older memory over it.
   */
  lemma StoredRevisionFallsIff(w: World, e: Event)
    requires Inv(w) && Admitted(e)
    ensures Step(w, e).disk.ackRevision < w.disk.ackRevision <==>
      w.disk.ackRevision > w.mem.ackRevision && WritesOld(w, e)
  {
    match e
    case DoFlush(_, _, host, last) =>
      if w.mem.pending.Some? {
        if w.mem.pending.value.acked {
          CleanUpStores(w, w.mem.pending.value, host, last);
        } else {
          UnackedFlushKeepsStored(w, e);
        }
      }
    case DoPrepare(_, _, _) =>
    case DoFreeze(_, _, _, _) =>
    case DoSave(_) =>
    case DoRestart =>
  }

  /** Before any step: no step at all can lower the number exactly while the file is not ahead of memory. */
  lemma StoredRevisionSafeIff(w: World)
    requires Inv(w)
    ensures (forall e | Admitted(e) :: Step(w, e).disk.ackRevision >= w.disk.ackRevision) <==>
      w.disk.ackRevision <= w.mem.ackRevision
  {
    forall e | Admitted(e)
      ensures Step(w, e).disk.ackRevision < w.disk.ackRevision <==>
        w.disk.ackRevision > w.mem.ackRevision && WritesOld(w, e)
    {
      StoredRevisionFallsIff(w, e);
    }
    assert Admitted(DoSave(Saved)) && WritesOld(w, DoSave(Saved));
  }

  /** In every reachable state: the number falls exactly so, and then its receipt is still pending, acknowledged. */
  lemma StoredRevisionFallsInRun(events: seq<Event>, e: Event)
    requires (forall n :: 0 <= n < |events| ==> Admitted(events[n])) && Admitted(e)
    ensures var w, v := Run(events), Run(events + [e]);
            && (v.disk.ackRevision < w.disk.ackRevision <==> w.disk.ackRevision > w.mem.ackRevision && WritesOld(w, e))
            && (v.disk.ackRevision < w.disk.ackRevision ==>
                 && w.mem.pending.Some? && w.mem.pending.value.acked
                 && w.disk.ackRevision == w.mem.pending.value.receipt.revision)
  {
    RunKeeps(events);
    assert (events + [e])[..|events|] == events;
    StoredRevisionFallsIff(Run(events), e);
  }

  function Zeros(n: nat): string { if n == 0 then "" else Zeros(n - 1) + "0" }

  lemma {:induction false} ZerosAreHex(n: nat)
    ensures |Zeros(n)| == n && forall i :: 0 <= i < n ==> Zeros(n)[i] == '0'
  {
    if n > 0 {
      ZerosAreHex(n - 1);
    }
  }

  const DIGEST: string := Zeros(64)

  const ONE := Desired(1, 1, DIGEST, [Forward(1, 443, false, false)])
  const READ := map[1 := Reading(0, 0, 0, 0)]
  const RECEIPT := Receipt(1, 1, DIGEST, 1, [Counter(1, 1, READ[1])])

  /** One forward is prepared, frozen and acknowledged; the last save replaces the file but reports an error. */
  function Interrupted(): seq<Event> {
    [DoPrepare(ONE, true, Saved), DoFreeze(ONE, Some(READ), 1, Saved), DoFlush(Answer(1), Saved, Busy, Unsynced)]
  }

  function PreparedOne(): World {
    var s := State([Meter(1, 443, false, false)], None, 0, 1);
    World(s, s, 1, {}, {}, {})
  }

  function FrozenOne(): World {
    var s := PreparedOne().mem.(pending := Some(Pending(RECEIPT, [], false)));
    World(s, s, 2, {}, {}, {})
  }

  lemma PreparesOne()
    ensures Step(Enrolled(), DoPrepare(ONE, true, Saved)) == PreparedOne()
  {
  }

  lemma OneIsValid()
    ensures ValidReceipt(RECEIPT)
  {
    ZerosAreHex(64);
  }

  lemma FreezesOne()
    ensures Step(PreparedOne(), DoFreeze(ONE, Some(READ), 1, Saved)) == FrozenOne()
  {
    OneIsValid();
    var fs := ONE.forwards;
    assert fs[..0] == [];
    assert Counters(fs, READ, 1) == [Counter(1, 1, READ[1])];
    assert Retired(fs) == [];
    var m := PreparedOne().mem.meters;
    assert m[0].id == 1 && fs[0].id == 1;
    assert Ids(m) == {1} && ForwardIds(fs) == {1};
  }

  /** A run of valid configurations in which the next save lowers the number in the file. */
  lemma StoredRevisionMayStepBack() returns (w: World)
    ensures forall n :: 0 <= n < |Interrupted()| ==> Admitted(Interrupted()[n])
    ensures w == Run(Interrupted()) && w.mem.pending == Some(Pending(RECEIPT, [], true)) && ValidReceipt(RECEIPT)
    ensures w.disk.ackRevision == 1 && w.mem.ackRevision == 0
    ensures Run(Interrupted() + [DoSave(Saved)]).disk.ackRevision == 0
  {
    var e := Interrupted();
    OneIsValid();
    PreparesOne();
    FreezesOne();
    RunSnoc([], e[0]);
    RunSnoc([e[0]], e[1]);
    RunSnoc([e[0], e[1]], e[2]);
    assert [] + [e[0]] == [e[0]] && [e[0]] + [e[1]] == [e[0], e[1]] && [e[0], e[1]] + [e[2]] == e;
    w := Step(FrozenOne(), e[2]);
    RunSnoc(e, DoSave(Saved));
  }

  lemma RunSnoc(events: seq<Event>, e: Event)
    ensures Run(events + [e]) == Step(Run(events), e)
  {
    assert (events + [e])[..|events|] == events;
  }

  /** Epochs are drawn in order, and no receipt carries one that was not drawn yet. */
  ghost predicate Dated(w: World) {
    && w.mem.nonce <= w.issued && w.disk.nonce <= w.issued
    && forall f, c :: f in Known(w) && c in f.receipt.counters ==> c.epoch <= w.issued
  }

  lemma CleanUpDrawn(w: World, p: Pending, host: Host, save: Save)
    requires w.mem.nonce <= w.issued && w.disk.nonce <= w.issued
    ensures var v := CleanUp(w, p, host, save); v.mem.nonce <= v.issued && v.disk.nonce <= v.issued && w.issued <= v.issued
  {
  }

  lemma StepDrawn(w: World, e: Event)
    requires w.mem.nonce <= w.issued && w.disk.nonce <= w.issued
    ensures var v := Step(w, e); v.mem.nonce <= v.issued && v.disk.nonce <= v.issued && w.issued <= v.issued
  {
    if e.DoFlush? && w.mem.pending.Some? {
      var p := w.mem.pending.value;
      if p.acked {
        CleanUpDrawn(w, p, e.host, e.lastSave);
      } else {
        CleanUpDrawn(Exchange(w, p, e.reply, e.ackSave), p.(acked := true), e.host, e.lastSave);
      }
    }
  }

  lemma StepDated(w: World, e: Event)
    requires Dated(w)
    ensures Dated(Step(w, e))
  {
    StepDrawn(w, e);
    var v := Step(w, e);
    forall f, c | f in Known(v) && c in f.receipt.counters
      ensures c.epoch <= v.issued
    {
      if f !in Known(w) {
        StepKnown(w, e, f);
      }
    }
  }

  lemma {:induction false} RunDated(events: seq<Event>)
    ensures Dated(Run(events))
  {
    if events != [] {
      var n := |events| - 1;
      RunDated(events[..n]);
      StepDated(Run(events[..n]), events[n]);
    }
  }

  /**
   Over every run: preparing with a lost table starts an epoch that no receipt, sent or
   pending, has used, so that new readings are never taken for a continuation of old
   ones; with the table in place the epoch stays.
   */
  lemma LostTableStartsEpoch(events: seq<Event>, ds: Desired, tableExists: bool, save: Save)
    requires var w := Run(events);
             w.mem.pending.None? && (ds.version != 0 || w.mem.meters != []) && |Wanted(w.mem, ds)| <= 256 && !save.Died()
    ensures var w := Run(events);
            var v := Step(w, DoPrepare(ds, tableExists, save));
            && v.mem.meters == Wanted(w.mem, ds) && v.mem.nonce > 0
            && (tableExists && w.mem.nonce > 0 ==> v.mem.nonce == w.mem.nonce)
            && (!tableExists ==> v.mem.nonce != w.mem.nonce)
            && (!tableExists ==> forall f, c :: f in Known(v) && c in f.receipt.counters ==> c.epoch != v.mem.nonce)
  {
    RunDated(events);
  }

  /** A lost table found while cleaning up gets its new epoch before anything is pruned. */
  lemma PruneStartsEpoch(w: World, p: Pending, host: Host)
    requires p.retired != [] && host.Ready? && !host.nonceSave.Died()
    ensures var v := Prune(w, p, host);
            && v.mem == (if host.tableExists then w.mem else w.mem.(nonce := w.issued + 1))
            && (Freeze(p) !in w.pruned ==> (Freeze(p) in v.pruned <==> host.tableExists || host.nonceSave.Saved?))
  {
  }

  /** A receipt is frozen exactly when one is due, everything was read and it is valid. */
  lemma FreezesIff(w: World, ds: Desired, read: Option<map<int, Reading>>, ts: int, save: Save)
    requires w.mem.pending.None? && !save.Died()
    ensures FreezeReceipt(w, ds, read, ts, save).mem.pending.Some? <==>
      && ds.forwards != [] && w.mem.ackRevision < ds.revision
      && read.Some? && Complete(w.mem, ds, read.value)
      && ValidReceipt(NextPending(w.mem, ds, read.value, w.issued, ts).receipt)
  {
  }

  // ---------------------------------------------------------------- the agent

  class Agent {
    var state: State
    var file: State
    var issued: nat
    ghost var sent: set<Frozen>
    ghost var acked: set<Frozen>
    ghost var pruned: set<Frozen>

    ghost function Now(): World
      reads this
    {
      World(state, file, issued, sent, acked, pruned)
    }

    constructor ()
      ensures Now() == Enrolled()
    {
      state, file, issued := State([], None, 0, 0), State([], None, 0, 0), 0;
      sent, acked, pruned := {}, {}, {};
    }

    method Persist(save: Save) returns (ok: bool)
      modifies this
      ensures Now() == SaveAll(old(Now()), save) && (ok <==> save.Saved?)
    {
      file := File(state, file, save);
      if save.Died() {
        state := file;
      }
      ok := save.Saved?;
    }

    /** A fresh random value. */
    method Draw() returns (n: nat)
      modifies this
      ensures n == old(issued) && Now() == old(Now()).(issued := n + 1)
    {
      n := issued;
      issued := issued + 1;
    }

    method PrepareForwardMeters(ds: Desired, tableExists: bool, save: Save)
      modifies this
      ensures Now() == Prepare(old(Now()), ds, tableExists, save)
    {
      if state.pending.Some? || (ds.version == 0 && |state.meters| == 0) {
        return;
      }
      var wanted := WantedMeters(state, ds);
      if |wanted| > BUDGET {
        return;
      }
      state := state.(meters := wanted);
      if !tableExists || state.nonce == 0 {
        var n := Draw();
        state := state.(nonce := n + 1);
      }
      var ok := Persist(save);
    }

    method FreezeForwardReceipt(ds: Desired, read: Option<map<int, Reading>>, ts: int, save: Save)
      modifies this
      ensures Now() == FreezeReceipt(old(Now()), ds, read, ts, save)
    {
      if |ds.forwards| == 0 || state.ackRevision >= ds.revision || state.pending.Some? || read.None? {
        return;
      }
      ghost var w := Now();
      var p := CollectReceipt(state, ds, read.value, issued, ts);
      if p.None? {
        return;
      }
      var id := Draw();
      var ok := ValidateReceipt(p.value.receipt);
      if !ok {
        return;
      }
      state := state.(pending := p);
      ok := Persist(save);
      assert Now() == FreezeReceipt(w, ds, read, ts, save);
    }

    method SendAndRecord(p: Pending, reply: Reply, save: Save)
      modifies this
      ensures Now() == Exchange(old(Now()), p, reply, save)
    {
      sent := sent + {Freeze(p)};
      if reply.DiedWaiting? {
        state := file;
      }
      if !(reply.Answer? && reply.ack == p.receipt.id) {
        return;
      }
      acked := acked + {Freeze(p)};
      var before := state;
      state := state.(pending := Some(p.(acked := true)));
      var ok := Persist(save);
      if !ok && !save.Died() {
        state := before;
      }
    }

    method PruneHost(p: Pending, host: Host) returns (ok: bool)
      modifies this
      ensures Now() == Prune(old(Now()), p, host)
      ensures ok <==> p.retired == [] || PruneDone(host)
    {
      if |p.retired| == 0 {
        return true;
      }
      if host.Busy? {
        return false;
      }
      if !host.tableExists {
        var n := Draw();
        state := state.(nonce := n + 1);
        ok := Persist(host.nonceSave);
        if !ok {
          return false;
        }
      }
      pruned := pruned + {Freeze(p)};
      ok := host.pruned;
    }

    method CleanAndForget(p: Pending, host: Host, save: Save)
      modifies this
      ensures Now() == CleanUp(old(Now()), p, host, save)
    {
      var ok := PruneHost(p, host);
      if !ok {
        return;
      }
      var before := state;
      var kept := KeepMeters(state.meters, Elements(p.retired));
      state := state.(meters := kept, pending := None, ackRevision := p.receipt.revision);
      ok := Persist(save);
      if !ok && !save.Died() {
        state := before;
      }
    }

    method FlushForwardReceipt(reply: Reply, ackSave: Save, host: Host, save: Save)
      modifies this
      ensures Now() == Flush(old(Now()), reply, ackSave, host, save)
    {
      if state.pending.None? {
        return;
      }
      ghost var w := Now();
      var p := state.pending.value;
      if p.acked {
        CleanAndForget(p, host, save);
        return;
      }
      SendAndRecord(p, reply, ackSave);
      if Confirms(reply, p) && ackSave.Saved? {
        CleanAndForget(p.(acked := true), host, save);
      }
      assert Now() == Flush(w, reply, ackSave, host, save);
    }
  }
}
