/**
 Final settlement of removed nodes (internal/agent/retirement.go). A batch of
 stale meter identities is frozen with its final readings, saved, sent until it is
 acknowledged, cleaned on the host and only then forgotten. Acknowledgements get
 lost, saves fail and the process restarts at any point.
 */
module Retirement {
  import opened Durable

  const BATCH_SIZE: nat := 128
  const MAX_IDENTITIES: nat := 2048
  const MAX_READING: int := 0x7FFF_FFFF_FFFF_FFFF / 4

  datatype Identity = Identity(node: int, generation: nat, port: int, core: string)

  datatype Node = Node(id: int, port: int, core: string, blocked: bool)

  datatype Counter = Counter(node: int, source: string, epoch: string, rx: int, tx: int, fromZero: bool)

  /** The content-addressed name of a batch; an ideal digest is as good as the content. */
  datatype Digest = Digest(ts: int, counters: seq<Counter>)

  datatype Batch = Batch(id: Digest, ts: int, counters: seq<Counter>)

  datatype Rule = Rule(node: int, port: int, core: string, blocked: bool, retired: bool)

  datatype Plan = Plan(batch: Batch, nodes: seq<Identity>, remaining: seq<Rule>, acked: bool)

  datatype State = State(meters: seq<Identity>, retirement: Option<Plan>, metering: bool, failed: bool)

  // ---------------------------------------------------------------- validation

  predicate ValidCounter(c: Counter) {
    && c.node > 0 && c.fromZero && c.source in {"openrc-cgroup-v1", "nft-node-v1", "systemd-v1"}
    && 0 < |c.epoch| <= 128 && 0 <= c.rx <= MAX_READING && 0 <= c.tx <= MAX_READING
  }

  ghost predicate ValidBatch(b: Batch) {
    && b.ts != 0 && 0 < |b.counters| <= BATCH_SIZE && b.id == Digest(b.ts, b.counters)
    && (forall i :: 0 <= i < |b.counters| ==> ValidCounter(b.counters[i]))
    && (forall i, j :: 0 <= i < j < |b.counters| ==> b.counters[i].node != b.counters[j].node)
  }

  method ValidateBatch(b: Batch) returns (ok: bool)
    ensures ok <==> ValidBatch(b)
    ensures ok <==>
      && b.ts != 0 && 1 <= |b.counters| <= 128 && b.id == Digest(b.ts, b.counters)
      && forall i :: 0 <= i < |b.counters| ==>
           var c := b.counters[i];
           && c.node > 0 && (forall k :: 0 <= k < i ==> b.counters[k].node != c.node)
           && c.fromZero && c.source in {"openrc-cgroup-v1", "nft-node-v1", "systemd-v1"} && 1 <= |c.epoch| <= 128
           && 0 <= c.rx <= MAX_READING && 0 <= c.tx <= MAX_READING
  {
    if b.ts == 0 || |b.counters| == 0 || |b.counters| > BATCH_SIZE || b.id != Digest(b.ts, b.counters) {
      return false;
    }
    var seen: set<int> := {};
    for i := 0 to |b.counters|
      invariant seen == set k | 0 <= k < i :: b.counters[k].node
      invariant forall k :: 0 <= k < i ==> ValidCounter(b.counters[k])
      invariant forall k, l :: 0 <= k < l < i ==> b.counters[k].node != b.counters[l].node
    {
      if !ValidCounter(b.counters[i]) || b.counters[i].node in seen {
        return false;
      }
      seen := seen + {b.counters[i].node};
    }
    return true;
  }

  function NodeIDs(ids: seq<Identity>): set<int> { set i | 0 <= i < |ids| :: ids[i].node }

  function CounterIDs(cs: seq<Counter>): set<int> { set i | 0 <= i < |cs| :: cs[i].node }

  function RuleIDs(rs: seq<Rule>): set<int> { set i | 0 <= i < |rs| :: rs[i].node }

  ghost predicate Distinct(ids: seq<Identity>) {
    forall i, j :: 0 <= i < j < |ids| ==> ids[i].node != ids[j].node
  }

  ghost predicate ValidPlan(p: Plan) {
    && ValidBatch(p.batch) && |p.nodes| == |p.batch.counters| && |p.remaining| <= MAX_IDENTITIES
    && Distinct(p.nodes)
    && CounterIDs(p.batch.counters) <= NodeIDs(p.nodes)
    && RuleIDs(p.remaining) !! NodeIDs(p.nodes)
  }

  method ValidatePlan(p: Plan) returns (ok: bool)
    ensures ok <==> ValidPlan(p)
  {
    ok := ValidateBatch(p.batch);
    if !ok || |p.nodes| != |p.batch.counters| || |p.remaining| > MAX_IDENTITIES {
      return false;
    }
    var ids: set<int> := {};
    for i := 0 to |p.nodes|
      invariant ids == NodeIDs(p.nodes[..i]) && Distinct(p.nodes[..i])
    {
      ghost var next := p.nodes[..i + 1];
      assert next == p.nodes[..i] + [p.nodes[i]];
      assert NodeIDs(next) == NodeIDs(p.nodes[..i]) + {p.nodes[i].node};
      if p.nodes[i].node in ids {
        return false;
      }
      ids := ids + {p.nodes[i].node};
    }
    assert p.nodes[..|p.nodes|] == p.nodes;
    for i := 0 to |p.batch.counters|
      invariant forall k :: 0 <= k < i ==> p.batch.counters[k].node in ids
    {
      if p.batch.counters[i].node !in ids {
        return false;
      }
    }
    for i := 0 to |p.remaining|
      invariant forall k :: 0 <= k < i ==> p.remaining[k].node !in ids
    {
      if p.remaining[i].node in ids {
        assert p.remaining[i].node in RuleIDs(p.remaining);
        return false;
      }
    }
    return true;
  }

  lemma {:induction false} DistinctCounters(cs: seq<Counter>)
    requires forall i, j :: 0 <= i < j < |cs| ==> cs[i].node != cs[j].node
    ensures |CounterIDs(cs)| == |cs|
  {
    if cs != [] {
      var n := |cs| - 1;
      DistinctCounters(cs[..n]);
      assert CounterIDs(cs) == CounterIDs(cs[..n]) + {cs[n].node};
    }
  }

  lemma {:induction false} DistinctNodes(ids: seq<Identity>)
    requires Distinct(ids)
    ensures |NodeIDs(ids)| == |ids|
  {
    if ids != [] {
      var n := |ids| - 1;
      DistinctNodes(ids[..n]);
      assert NodeIDs(ids) == NodeIDs(ids[..n]) + {ids[n].node};
    }
  }

  lemma NodeIDsSnoc(ids: seq<Identity>, m: Identity)
    ensures NodeIDs(ids + [m]) == NodeIDs(ids) + {m.node}
  {
    assert forall i :: 0 <= i < |ids| ==> (ids + [m])[i] == ids[i];
    assert (ids + [m])[|ids|] == m;
  }

  lemma RuleIDsSnoc(rs: seq<Rule>, r: Rule)
    ensures RuleIDs(rs + [r]) == RuleIDs(rs) + {r.node}
  {
    assert forall i :: 0 <= i < |rs| ==> (rs + [r])[i] == rs[i];
    assert (rs + [r])[|rs|] == r;
  }

  /** A plan that validates settles exactly its nodes: one reading each and none besides. */
  lemma PlanReadsItsNodes(p: Plan)
    requires ValidPlan(p)
    ensures CounterIDs(p.batch.counters) == NodeIDs(p.nodes)
  {
    DistinctCounters(p.batch.counters);
    DistinctNodes(p.nodes);
    var extra := NodeIDs(p.nodes) - CounterIDs(p.batch.counters);
    assert NodeIDs(p.nodes) == CounterIDs(p.batch.counters) + extra;
    assert |extra| == 0;
  }

  // ---------------------------------------------------------------- loops over the meter list

  /** The identities of other nodes than these, in order: stale meters, and meters kept after a settlement. */
  function Without(meters: seq<Identity>, ids: set<int>): seq<Identity> {
    if meters == [] then []
    else
      var n := |meters| - 1;
      Without(meters[..n], ids) + (if meters[n].node in ids then [] else [meters[n]])
  }

  function First<T>(s: seq<T>, n: nat): seq<T> {
    if |s| <= n then s else s[..n]
  }

  /** The accounting rule that stays for an identity outside the batch. */
  function RuleFor(m: Identity, active: map<int, Node>): Rule {
    if m.node in active then
      var live := active[m.node];
      Rule(m.node, live.port, live.core, live.blocked, false)
    else Rule(m.node, m.port, m.core, true, true)
  }

  function Remaining(meters: seq<Identity>, selected: set<int>, active: map<int, Node>): seq<Rule> {
    if meters == [] then []
    else
      var n := |meters| - 1;
      Remaining(meters[..n], selected, active) + (if meters[n].node in selected then [] else [RuleFor(meters[n], active)])
  }

  function Active(nodes: seq<Node>): map<int, Node> {
    if nodes == [] then map[] else Active(nodes[..|nodes| - 1])[nodes[|nodes| - 1].id := nodes[|nodes| - 1]]
  }

  /** New identities for nodes not metered yet; a nonce never used before marks each. */
  function Additions(meters: seq<Identity>, nodes: seq<Node>, issued: nat): seq<Identity> {
    if nodes == [] then []
    else
      var n := |nodes| - 1;
      var before := Additions(meters, nodes[..n], issued);
      if nodes[n].id in NodeIDs(meters) || nodes[n].id in NodeIDs(before) then before
      else before + [Identity(nodes[n].id, issued + |before|, nodes[n].port, nodes[n].core)]
  }

  method SelectStale(meters: seq<Identity>, active: set<int>) returns (out: seq<Identity>)
    ensures out == First(Without(meters, active), BATCH_SIZE)
  {
    out := [];
    for i := 0 to |meters|
      invariant out == First(Without(meters[..i], active), BATCH_SIZE)
    {
      assert meters[..i + 1][..i] == meters[..i];
      if meters[i].node !in active && |out| < BATCH_SIZE {
        out := out + [meters[i]];
      }
    }
    assert meters[..|meters|] == meters;
  }

  method RemainingRules(meters: seq<Identity>, selected: set<int>, active: map<int, Node>) returns (out: seq<Rule>)
    ensures out == Remaining(meters, selected, active)
  {
    out := [];
    for i := 0 to |meters|
      invariant out == Remaining(meters[..i], selected, active)
    {
      assert meters[..i + 1][..i] == meters[..i];
      if meters[i].node !in selected {
        var r := Rule(meters[i].node, meters[i].port, meters[i].core, true, true);
        if meters[i].node in active {
          var live := active[meters[i].node];
          r := r.(port := live.port, core := live.core, blocked := live.blocked, retired := false);
        }
        out := out + [r];
      }
    }
    assert meters[..|meters|] == meters;
  }

  method KeepOthers(meters: seq<Identity>, removed: set<int>) returns (out: seq<Identity>)
    ensures out == Without(meters, removed)
  {
    out := [];
    for i := 0 to |meters|
      invariant out == Without(meters[..i], removed)
    {
      assert meters[..i + 1][..i] == meters[..i];
      if meters[i].node !in removed {
        out := out + [meters[i]];
      }
    }
    assert meters[..|meters|] == meters;
  }

  method NewIdentities(meters: seq<Identity>, nodes: seq<Node>, issued: nat) returns (out: seq<Identity>)
    ensures out == Additions(meters, nodes, issued)
  {
    var known := NodeIDs(meters);
    out := [];
    for i := 0 to |nodes|
      invariant out == Additions(meters, nodes[..i], issued)
      invariant known == NodeIDs(meters) + NodeIDs(out)
    {
      assert nodes[..i + 1][..i] == nodes[..i];
      if nodes[i].id !in known {
        known := known + {nodes[i].id};
        var m := Identity(nodes[i].id, issued + |out|, nodes[i].port, nodes[i].core);
        NodeIDsSnoc(out, m);
        out := out + [m];
      }
    }
    assert nodes[..|nodes|] == nodes;
  }

  lemma {:induction false} WithoutMembers(meters: seq<Identity>, active: set<int>)
    ensures forall m :: m in Without(meters, active) <==> m in meters && m.node !in active
  {
    if meters != [] {
      var n := |meters| - 1;
      WithoutMembers(meters[..n], active);
      assert meters == meters[..n] + [meters[n]];
    }
  }

  lemma {:induction false} WithoutDistinct(meters: seq<Identity>, active: set<int>)
    requires Distinct(meters)
    ensures Distinct(Without(meters, active))
  {
    if meters != [] {
      var n := |meters| - 1;
      WithoutDistinct(meters[..n], active);
      WithoutMembers(meters[..n], active);
    }
  }

  /** Frozen and remaining identities partition the meter list. */
  lemma {:induction false} RemainingPartition(meters: seq<Identity>, selected: set<int>, active: map<int, Node>)
    ensures RuleIDs(Remaining(meters, selected, active)) == NodeIDs(meters) - selected
  {
    if meters != [] {
      var n := |meters| - 1;
      var before := Remaining(meters[..n], selected, active);
      RemainingPartition(meters[..n], selected, active);
      assert meters == meters[..n] + [meters[n]];
      NodeIDsSnoc(meters[..n], meters[n]);
      RuleIDsSnoc(before, RuleFor(meters[n], active));
      if meters[n].node in selected {
        assert Remaining(meters, selected, active) == before;
      } else {
        assert Remaining(meters, selected, active) == before + [RuleFor(meters[n], active)];
      }
    }
  }

  /** The rules that stay: closed for identities that are gone, as configured for nodes that are active. */
  lemma {:induction false} RemainingExactly(meters: seq<Identity>, selected: set<int>, active: map<int, Node>, r: Rule)
    ensures r in Remaining(meters, selected, active) <==>
      exists m :: m in meters && m.node !in selected &&
        if m.node in active then r == Rule(m.node, active[m.node].port, active[m.node].core, active[m.node].blocked, false)
        else r == Rule(m.node, m.port, m.core, true, true)
  {
    if meters != [] {
      var n := |meters| - 1;
      RemainingExactly(meters[..n], selected, active, r);
      assert meters == meters[..n] + [meters[n]];
    }
  }

  /** The last node with an identifier is the active one. */
  lemma {:induction false} ActiveHolds(nodes: seq<Node>, id: int)
    ensures id in Active(nodes) <==> exists i :: 0 <= i < |nodes| && nodes[i].id == id
    ensures id in Active(nodes) ==> Active(nodes)[id].id == id && Active(nodes)[id] in nodes
  {
    if nodes != [] {
      ActiveHolds(nodes[..|nodes| - 1], id);
    }
  }

  /** Every node gets an identity. */
  lemma {:induction false} AdditionsCover(meters: seq<Identity>, nodes: seq<Node>, issued: nat, n: Node)
    requires n in nodes
    ensures n.id in NodeIDs(meters) || n.id in NodeIDs(Additions(meters, nodes, issued))
  {
    var k := |nodes| - 1;
    var before := Additions(meters, nodes[..k], issued);
    NodeIDsSnoc(before, Identity(nodes[k].id, issued + |before|, nodes[k].port, nodes[k].core));
    if n != nodes[k] {
      assert nodes == nodes[..k] + [nodes[k]];
      AdditionsCover(meters, nodes[..k], issued, n);
    }
  }

  /** A new identity takes over port and core from a node. */
  lemma {:induction false} AdditionsOfNodes(meters: seq<Identity>, nodes: seq<Node>, issued: nat, m: Identity)
    requires m in Additions(meters, nodes, issued)
    ensures exists n :: n in nodes && n.id == m.node && n.port == m.port && n.core == m.core
  {
    var k := |nodes| - 1;
    assert nodes == nodes[..k] + [nodes[k]];
    var before := Additions(meters, nodes[..k], issued);
    if m in before {
      AdditionsOfNodes(meters, nodes[..k], issued, m);
    } else {
      assert nodes[k] in nodes;
    }
  }

  lemma {:induction false} AdditionsFresh(meters: seq<Identity>, nodes: seq<Node>, issued: nat)
    ensures var a := Additions(meters, nodes, issued);
            && Distinct(a)
            && (forall i :: 0 <= i < |a| ==> issued <= a[i].generation < issued + |a| && a[i].node !in NodeIDs(meters))
  {
    if nodes != [] {
      AdditionsFresh(meters, nodes[..|nodes| - 1], issued);
    }
  }

  // ---------------------------------------------------------------- the protocol

  /** A batch together with the identities it settles: what goes over the wire. */
  datatype Frozen = Frozen(nodes: seq<Identity>, batch: Batch)

  /** Memory, state file, and everything that ever left the process. */
  datatype World = World(
    mem: State, disk: State, desired: Option<seq<Node>>, finalMeters: bool, issued: nat,
    sent: set<Frozen>, acked: set<Batch>, cleaned: set<Identity>)

  function Freeze(p: Plan): Frozen { Frozen(p.nodes, p.batch) }

  function Restarted(w: World): World {
    w.(mem := w.disk, desired := None, finalMeters := false)
  }

  /** Tries to replace the state file by `next`; memory becomes `next` only when the save succeeds. */
  function Commit(w: World, next: State, save: Save): World {
    var v := w.(disk := File(next, w.disk, save));
    if save.Died() then Restarted(v) else if save.Saved? then v.(mem := next) else v
  }

  /** What beginRetirement would freeze now. */
  function NextPlan(w: World, ts: int, counters: seq<Counter>): Plan
    requires w.desired.Some?
  {
    var active := Active(w.desired.value);
    var nodes := First(Without(w.mem.meters, active.Keys), BATCH_SIZE);
    Plan(Batch(Digest(ts, counters), ts, counters), nodes, Remaining(w.mem.meters, NodeIDs(nodes), active), false)
  }

  predicate MayBegin(w: World) {
    w.mem.retirement.None? && w.finalMeters && w.mem.metering && !w.mem.failed && w.desired.Some?
  }

  /** beginRetirement with the final reading the host delivered, if any. */
  ghost function Begin(w: World, ts: int, read: Option<seq<Counter>>, oversize: bool, save: Save): World {
    if !MayBegin(w) || read.None? then w
    else
      var p := NextPlan(w, ts, read.value);
      if p.nodes == [] || !ValidBatch(p.batch) || oversize then w
      else Commit(w, w.mem.(retirement := Some(p)), save)
  }

  /**
   Exactly when a settlement begins, and what it settles: the first stale identities, as
   many as a batch holds, with the final readings the host delivered.
   */
  lemma BeginsIff(w: World, ts: int, read: Option<seq<Counter>>, oversize: bool, save: Save)
    requires w.mem.retirement.None? && !save.Died()
    ensures var v := Begin(w, ts, read, oversize, save);
            var stale := if w.desired.Some? then Without(w.mem.meters, Active(w.desired.value).Keys) else [];
            && (v.mem.retirement.Some? <==>
                 && w.finalMeters && w.mem.metering && !w.mem.failed && w.desired.Some? && stale != []
                 && read.Some? && ValidBatch(Batch(Digest(ts, read.value), ts, read.value)) && !oversize && save.Saved?)
            && (v.mem.retirement.Some? ==>
                 var p := v.mem.retirement.value;
                 && !p.acked && p.batch == Batch(Digest(ts, read.value), ts, read.value)
                 && p.nodes == (if |stale| > 128 then stale[..128] else stale))
  {
  }

  /** The controller's answer to a batch; a lost answer tells the agent nothing. */
  datatype Reply = Lost | Answer(version: nat, ack: Digest) | DiedWaiting

  /** A capable controller names this batch by its content. */
  predicate Confirms(reply: Reply, p: Plan) { reply.Answer? && reply.version >= 1 && reply.ack == p.batch.id }

  /** Cleaning on the host: it may stop half-way, and the process may die in it. */
  datatype Cleaning = Cleaned | Stopped(part: set<Identity>) | DiedCleaning(part: set<Identity>)

  function Sent(w: World, p: Plan): World { w.(sent := w.sent + {Freeze(p)}) }

  function Acked(w: World, p: Plan): World { w.(acked := w.acked + {p.batch}) }

  function Forget(s: State, p: Plan): State {
    s.(meters := Without(s.meters, NodeIDs(p.nodes)), retirement := None)
  }

  function Members(ids: seq<Identity>): set<Identity> { set i | 0 <= i < |ids| :: ids[i] }

  /**
   A batch counts as acknowledged exactly when an answer of a capable controller names
   its content. Any other answer changes nothing in memory or file.
   */
  lemma AcknowledgedIff(w: World, p: Plan, reply: Reply, save: Save)
    requires p.batch !in w.acked
    ensures var v := Exchange(w, p, reply, save);
            && (p.batch in v.acked <==> reply.Answer? && reply.version >= 1 && reply.ack == p.batch.id)
            && (p.batch !in v.acked && !reply.DiedWaiting? ==> v.mem == w.mem && v.disk == w.disk)
            && (reply.DiedWaiting? ==> v.mem == w.disk && v.disk == w.disk && v.desired.None?)
            && (p.batch in v.acked && save.Saved? ==> v.mem == w.mem.(retirement := Some(p.(acked := true))) && v.disk == v.mem)
  {
  }

  /** The second half of flushRetirement, reached only with a durable acknowledgement. */
  function CleanUp(w: World, p: Plan, clean: Cleaning, save: Save): World {
    match clean
    case Stopped(part) => w.(cleaned := w.cleaned + (Members(p.nodes) * part))
    case DiedCleaning(part) => Restarted(w.(cleaned := w.cleaned + (Members(p.nodes) * part)))
    case Cleaned => Commit(w.(cleaned := w.cleaned + Members(p.nodes)), Forget(w.mem, p), save)
  }

  /** The first half of flushRetirement: send the frozen bytes, record the acknowledgement. */
  function Exchange(w: World, p: Plan, reply: Reply, save: Save): World {
    var s := Sent(w, p);
    if reply.DiedWaiting? then Restarted(s)
    else if Confirms(reply, p) then Commit(Acked(s, p), w.mem.(retirement := Some(p.(acked := true))), save)
    else s
  }

  /** Send unless already acknowledged, then clean up behind a durable acknowledgement. */
  function Settle(w: World, p: Plan, reply: Reply, ackSave: Save, clean: Cleaning, save: Save): World {
    if p.acked then CleanUp(w, p, clean, save)
    else
      var a := Exchange(w, p, reply, ackSave);
      if Confirms(reply, p) && ackSave.Saved? then CleanUp(a, p.(acked := true), clean, save) else a
  }

  /** flushRetirement. */
  ghost function Flush(w: World, reply: Reply, ackSave: Save, clean: Cleaning, save: Save): World {
    if w.mem.retirement.None? || !ValidPlan(w.mem.retirement.value) then w
    else Settle(w, w.mem.retirement.value, reply, ackSave, clean, save)
  }

  /** Saves whatever is in memory; nothing is reverted on failure. */
  function SaveAll(w: World, save: Save): World {
    var v := w.(disk := File(w.mem, w.disk, save));
    if save.Died() then Restarted(v) else v
  }

  /** What each way a save can end leaves in memory and in the file. */
  lemma SaveOutcomes(w: World, next: State, save: Save)
    ensures var v := Commit(w, next, save);
            && v.mem == (match save case Saved => next case DiedAfter => next case DiedBefore => w.disk case _ => w.mem)
            && v.disk == (match save case NotWritten => w.disk case DiedBefore => w.disk case _ => next)
            && v == (if save.Died() then w.(mem := v.disk, disk := v.disk, desired := None, finalMeters := false) else w.(mem := v.mem, disk := v.disk))
    ensures SaveAll(w, save) == Commit(w, w.mem, save)
  {
  }

  function Remembered(w: World, nodes: seq<Node>): World {
    var more := Additions(w.mem.meters, nodes, w.issued);
    w.(mem := w.mem.(meters := w.mem.meters + more), issued := w.issued + |more|)
  }

  /** The retained identities stay within their budget. */
  predicate Fits(w: World, nodes: seq<Node>) {
    var more := Additions(w.mem.meters, nodes, w.issued);
    more == [] || |w.mem.meters| + |more| <= MAX_IDENTITIES
  }

  /** rememberMeters and the save that must succeed before any process produces bytes. */
  function Remember(w: World, nodes: seq<Node>, save: Save): World {
    if Fits(w, nodes) then SaveAll(Remembered(w, nodes), save) else w
  }

  function Failing(w: World): World { w.(mem := w.mem.(failed := true)) }

  function InForce(w: World, nodes: seq<Node>): World {
    w.(mem := w.mem.(metering := true, failed := false), desired := Some(nodes))
  }

  /** One converge attempt: blocked while a settlement is pending, otherwise remember, apply, record the result. */
  function Converge(w: World, nodes: seq<Node>, first: Save, applied: bool, last: Save): World {
    if w.mem.retirement.Some? then w
    else if !Fits(w, nodes) then SaveAll(Failing(w), last)
    else
      var r := SaveAll(Remembered(w, nodes), first);
      if first.Died() then r
      else SaveAll(if applied && first.Saved? then InForce(r, nodes) else Failing(r), last)
  }

  /**
   One attempt on a process that survives it: blocked while a settlement is pending; past
   the budget nothing is remembered; otherwise every node has an identity, whatever
   follows, and only an application whose saves worked is in force.
   */
  lemma ConvergeOutcome(w: World, nodes: seq<Node>, first: Save, applied: bool, last: Save)
    requires !first.Died() && !last.Died()
    ensures var v := Converge(w, nodes, first, applied, last);
            var more := Additions(w.mem.meters, nodes, w.issued);
            var fits := more == [] || |w.mem.meters| + |more| <= 2048;
            if w.mem.retirement.Some? then v == w
            else
              && v.mem.meters == (if fits then w.mem.meters + more else w.mem.meters)
              && v.issued == (if fits then w.issued + |more| else w.issued)
              && (if fits && first.Saved? && applied then v.mem.metering && !v.mem.failed && v.desired == Some(nodes)
                  else v.mem.failed && v.mem.metering == w.mem.metering && v.desired == w.desired)
              && (last.Written() ==> v.disk == v.mem)
  {
  }

  datatype Event =
    | DoBegin(ts: int, read: Option<seq<Counter>>, oversize: bool, beginSave: Save)
    | DoFlush(reply: Reply, ackSave: Save, clean: Cleaning, lastSave: Save)
    | DoConverge(nodes: seq<Node>, first: Save, applied: bool, last: Save)
    | DoSave(save: Save)
    | DoNegotiate(finalMeters: bool)
    | DoRestart

  ghost function Step(w: World, e: Event): World {
    match e
    case DoBegin(ts, read, oversize, save) => Begin(w, ts, read, oversize, save)
    case DoFlush(reply, ackSave, clean, save) => Flush(w, reply, ackSave, clean, save)
    case DoConverge(nodes, first, applied, last) => Converge(w, nodes, first, applied, last)
    case DoSave(save) => SaveAll(w, save)
    case DoNegotiate(finalMeters) => w.(finalMeters := finalMeters)
    case DoRestart => Restarted(w)
  }

  ghost function Run(w: World, events: seq<Event>): World {
    if events == [] then w else Step(Run(w, events[..|events| - 1]), events[|events| - 1])
  }

  // ---------------------------------------------------------------- safety

  /** The pending plan covers part of the meters and leaves rules for exactly the rest. */
  ghost predicate Covers(p: Plan, meters: seq<Identity>) {
    && (forall i :: 0 <= i < |p.nodes| ==> p.nodes[i] in meters)
    && RuleIDs(p.remaining) == NodeIDs(meters) - NodeIDs(p.nodes)
  }

  /** An identity that was sent stays bound to the batch it was sent in for as long as it is remembered. */
  ghost predicate Bound(s: State, sent: set<Frozen>) {
    forall f, m :: f in sent && m in f.nodes && m in s.meters ==> s.retirement.Some? && Freeze(s.retirement.value) == f
  }

  ghost predicate Sound(s: State, w: World) {
    && Distinct(s.meters)
    && (forall m :: m in s.meters ==> m.generation < w.issued)
    && Bound(s, w.sent)
    && (s.retirement.Some? ==>
         var p := s.retirement.value;
         Covers(p, s.meters) && (p.acked ==> Freeze(p) in w.sent && p.batch in w.acked))
  }

  /** A batch sent with these identities reads exactly them. */
  ghost predicate Exact(f: Frozen) {
    ValidBatch(f.batch) && CounterIDs(f.batch.counters) == NodeIDs(f.nodes)
  }

  ghost predicate Inv(w: World) {
    && Sound(w.mem, w) && Sound(w.disk, w)
    // the file either knows the pending plan or has forgotten its identities
    && (w.mem.retirement.Some? ==>
         forall m :: m in w.mem.retirement.value.nodes && m in w.disk.meters ==>
           w.disk.retirement.Some? && Freeze(w.disk.retirement.value) == Freeze(w.mem.retirement.value))
    // each identity was sent in at most one batch
    && (forall f, g, m :: f in w.sent && g in w.sent && m in f.nodes && m in g.nodes ==> f == g)
    && (forall f, m :: f in w.sent && m in f.nodes ==> m.generation < w.issued)
    && (forall f :: f in w.sent ==> Exact(f))
    // counters are cleaned only for identities whose batch was acknowledged
    && (forall m :: m in w.cleaned ==> Settled(w, m))
  }

  ghost predicate Settled(w: World, m: Identity) {
    exists f :: f in w.sent && m in f.nodes && f.batch in w.acked
  }

  lemma RestartKeeps(w: World)
    requires Inv(w)
    ensures Inv(Restarted(w))
  {
    var v := Restarted(w);
    forall m | m in v.cleaned
      ensures Settled(v, m)
    {
      assert Settled(w, m);
    }
  }

  /** A pending plan is not lost: the next state has it, or has forgotten its identities. */
  ghost predicate Succeeds(next: State, mem: State) {
    mem.retirement.Some? ==>
      forall m :: m in mem.retirement.value.nodes && m in next.meters ==>
        next.retirement.Some? && Freeze(next.retirement.value) == Freeze(mem.retirement.value)
  }

  lemma StoredKeeps(w: World, next: State)
    requires Inv(w) && Sound(next, w) && Succeeds(next, w.mem)
    ensures Inv(w.(disk := next))
  {
    forall m | m in w.cleaned
      ensures Settled(w.(disk := next), m)
    {
      assert Settled(w, m);
    }
  }

  lemma AdoptedKeeps(w: World, next: State)
    requires Inv(w) && Sound(next, w)
    ensures Inv(w.(mem := next, disk := next))
  {
    forall m | m in w.cleaned
      ensures Settled(w.(mem := next, disk := next), m)
    {
      assert Settled(w, m);
    }
  }

  /** Saving a sound next state is safe in each of the ways the save can end. */
  lemma CommitKeeps(w: World, next: State, save: Save)
    requires Inv(w) && Sound(next, w) && Succeeds(next, w.mem)
    ensures Inv(Commit(w, next, save))
  {
    StoredKeeps(w, next);
    match save
    case Saved => AdoptedKeeps(w, next);
    case NotWritten =>
    case Unsynced =>
    case DiedBefore => RestartKeeps(w);
    case DiedAfter => RestartKeeps(w.(disk := next));
  }

  lemma BeginKeeps(w: World, ts: int, read: Option<seq<Counter>>, oversize: bool, save: Save)
    requires Inv(w)
    ensures Inv(Begin(w, ts, read, oversize, save))
  {
    if MayBegin(w) && read.Some? {
      var p := NextPlan(w, ts, read.value);
      var active := Active(w.desired.value);
      WithoutMembers(w.mem.meters, active.Keys);
      RemainingPartition(w.mem.meters, NodeIDs(p.nodes), active);
      var next := w.mem.(retirement := Some(p));
      assert Sound(next, w);
      CommitKeeps(w, next, save);
    }
  }

  /** Sending keeps the rule of one batch per identity. */
  lemma SendKeeps(w: World, p: Plan)
    requires Inv(w) && w.mem.retirement == Some(p) && ValidPlan(p)
    ensures Inv(Sent(w, p))
  {
    PlanReadsItsNodes(p);
    var v := Sent(w, p);
    forall f, m | f in w.sent && m in f.nodes && m in p.nodes
      ensures f == Freeze(p)
    {
      assert m in w.mem.meters;
    }
    assert Sound(v.mem, v) && Sound(v.disk, v);
    forall m | m in v.cleaned
      ensures Settled(v, m)
    {
      assert Settled(w, m);
    }
  }

  lemma AckKeeps(w: World, p: Plan)
    requires Inv(w)
    ensures Inv(Acked(w, p))
  {
    var v := Acked(w, p);
    assert Sound(v.mem, v) && Sound(v.disk, v);
    forall m | m in v.cleaned
      ensures Settled(v, m)
    {
      assert Settled(w, m);
    }
  }

  /** Cleaning more of an acknowledged plan keeps the rule that only settled identities are cleaned. */
  lemma CleanedKeeps(w: World, p: Plan, part: set<Identity>)
    requires Inv(w) && Freeze(p) in w.sent && p.batch in w.acked && part <= Members(p.nodes)
    ensures Inv(w.(cleaned := w.cleaned + part))
  {
    var v := w.(cleaned := w.cleaned + part);
    assert Sound(v.mem, v) && Sound(v.disk, v);
    forall m | m in v.cleaned
      ensures Settled(v, m)
    {
      if m in part {
        assert Freeze(p) in v.sent && m in Freeze(p).nodes;
      } else {
        assert Settled(w, m);
      }
    }
  }

  /** After the plan is forgotten nothing it settled is remembered, so nothing can be sent again. */
  lemma ForgetSound(w: World, p: Plan)
    requires Inv(w) && w.mem.retirement == Some(p) && Freeze(p) in w.sent
    ensures Sound(Forget(w.mem, p), w)
    ensures forall m :: m in p.nodes ==> m !in Forget(w.mem, p).meters
  {
    var s := Forget(w.mem, p);
    WithoutMembers(w.mem.meters, NodeIDs(p.nodes));
    WithoutDistinct(w.mem.meters, NodeIDs(p.nodes));
    forall m | m in p.nodes
      ensures m.node in NodeIDs(p.nodes)
    {
    }
    forall m | m in s.meters
      ensures m in w.mem.meters && m !in p.nodes
    {
    }
  }

  lemma CleanUpKeeps(w: World, p: Plan, clean: Cleaning, save: Save)
    requires Inv(w) && w.mem.retirement == Some(p) && p.acked
    ensures Inv(CleanUp(w, p, clean, save))
  {
    match clean
    case Stopped(part) => CleanedKeeps(w, p, Members(p.nodes) * part);
    case DiedCleaning(part) =>
      CleanedKeeps(w, p, Members(p.nodes) * part);
      RestartKeeps(w.(cleaned := w.cleaned + (Members(p.nodes) * part)));
    case Cleaned =>
      CleanedKeeps(w, p, Members(p.nodes));
      var v := w.(cleaned := w.cleaned + Members(p.nodes));
      ForgetSound(v, p);
      CommitKeeps(v, Forget(w.mem, p), save);
  }

  lemma ExchangeKeeps(w: World, p: Plan, reply: Reply, save: Save)
    requires Inv(w) && w.mem.retirement == Some(p) && ValidPlan(p)
    ensures Inv(Exchange(w, p, reply, save))
  {
    SendKeeps(w, p);
    var s := Sent(w, p);
    if reply.DiedWaiting? {
      RestartKeeps(s);
    } else if Confirms(reply, p) {
      AckKeeps(s, p);
      var next := w.mem.(retirement := Some(p.(acked := true)));
      assert Sound(next, Acked(s, p));
      CommitKeeps(Acked(s, p), next, save);
    }
  }

  lemma ExchangeRecords(w: World, p: Plan, reply: Reply, save: Save)
    requires Confirms(reply, p) && save.Saved?
    ensures Exchange(w, p, reply, save).mem.retirement == Some(p.(acked := true))
  {
  }

  lemma SettleKeeps(w: World, p: Plan, reply: Reply, ackSave: Save, clean: Cleaning, save: Save)
    requires Inv(w) && w.mem.retirement == Some(p) && ValidPlan(p)
    ensures Inv(Settle(w, p, reply, ackSave, clean, save))
  {
    if p.acked {
      CleanUpKeeps(w, p, clean, save);
    } else {
      ExchangeKeeps(w, p, reply, ackSave);
      if Confirms(reply, p) && ackSave.Saved? {
        ExchangeRecords(w, p, reply, ackSave);
        CleanUpKeeps(Exchange(w, p, reply, ackSave), p.(acked := true), clean, save);
      }
    }
  }

  lemma FlushKeeps(w: World, reply: Reply, ackSave: Save, clean: Cleaning, save: Save)
    requires Inv(w)
    ensures Inv(Flush(w, reply, ackSave, clean, save))
  {
    if w.mem.retirement.Some? && ValidPlan(w.mem.retirement.value) {
      SettleKeeps(w, w.mem.retirement.value, reply, ackSave, clean, save);
    }
  }

  lemma SaveAllKeeps(w: World, save: Save)
    requires Inv(w)
    ensures Inv(SaveAll(w, save))
  {
    CommitKeeps(w, w.mem, save);
  }

  lemma ExtendedMeters(meters: seq<Identity>, nodes: seq<Node>, issued: nat)
    requires Distinct(meters)
    ensures var all := meters + Additions(meters, nodes, issued);
            && Distinct(all)
            && (forall m :: m in all ==> m in meters || issued <= m.generation < issued + |Additions(meters, nodes, issued)|)
  {
    var more := Additions(meters, nodes, issued);
    AdditionsFresh(meters, nodes, issued);
    forall i, j | 0 <= i < j < |meters + more|
      ensures (meters + more)[i].node != (meters + more)[j].node
    {
      if i < |meters| <= j {
        assert meters[i].node in NodeIDs(meters);
      }
    }
  }

  lemma RememberedKeeps(w: World, nodes: seq<Node>)
    requires Inv(w) && w.mem.retirement.None?
    ensures Inv(Remembered(w, nodes))
  {
    ExtendedMeters(w.mem.meters, nodes, w.issued);
    RememberedSound(w, Remembered(w, nodes));
  }

  lemma RememberedSound(w: World, v: World)
    requires Inv(w) && w.mem.retirement.None? && w.issued <= v.issued && v == w.(mem := v.mem, issued := v.issued)
    requires v.mem == w.mem.(meters := v.mem.meters) && Distinct(v.mem.meters)
    requires forall m :: m in v.mem.meters ==> m in w.mem.meters || w.issued <= m.generation < v.issued
    ensures Inv(v)
  {
    assert Sound(v.mem, v);
    assert Sound(v.disk, v);
    forall m | m in v.cleaned
      ensures Settled(v, m)
    {
      assert Settled(w, m);
    }
  }

  /** The result of an application is no part of the settlement. */
  lemma ResultKeeps(w: World, nodes: seq<Node>)
    requires Inv(w)
    ensures Inv(Failing(w)) && Inv(InForce(w, nodes))
  {
    forall v | v == Failing(w) || v == InForce(w, nodes)
      ensures Sound(v.mem, v) && Sound(v.disk, v) && forall m :: m in v.cleaned ==> Settled(v, m)
    {
      forall m | m in v.cleaned
        ensures Settled(v, m)
      {
        assert Settled(w, m);
      }
    }
  }

  lemma ConcludeKeeps(w: World, nodes: seq<Node>, inForce: bool, last: Save)
    requires Inv(w)
    ensures Inv(SaveAll(if inForce then InForce(w, nodes) else Failing(w), last))
  {
    ResultKeeps(w, nodes);
    SaveAllKeeps(if inForce then InForce(w, nodes) else Failing(w), last);
  }

  lemma ConvergeKeeps(w: World, nodes: seq<Node>, first: Save, applied: bool, last: Save)
    requires Inv(w)
    ensures Inv(Converge(w, nodes, first, applied, last))
  {
    if w.mem.retirement.None? {
      if Fits(w, nodes) {
        RememberedKeeps(w, nodes);
        SaveAllKeeps(Remembered(w, nodes), first);
        ConcludeKeeps(SaveAll(Remembered(w, nodes), first), nodes, applied && first.Saved?, last);
      } else {
        ConcludeKeeps(w, nodes, false, last);
      }
    }
  }

  lemma StepKeeps(w: World, e: Event)
    requires Inv(w)
    ensures Inv(Step(w, e))
  {
    match e
    case DoBegin(ts, read, oversize, save) => BeginKeeps(w, ts, read, oversize, save);
    case DoFlush(reply, ackSave, clean, save) => FlushKeeps(w, reply, ackSave, clean, save);
    case DoConverge(nodes, first, applied, last) => ConvergeKeeps(w, nodes, first, applied, last);
    case DoSave(save) => SaveAllKeeps(w, save);
    case DoNegotiate(finalMeters) =>
      var v := w.(finalMeters := finalMeters);
      assert Sound(v.mem, v) && Sound(v.disk, v);
      forall m | m in v.cleaned
        ensures Settled(v, m)
      {
        assert Settled(w, m);
      }
    case DoRestart => RestartKeeps(w);
  }

  /** A newly enrolled agent. */
  function Enrolled(): World {
    var s := State([], None, false, false);
    World(s, s, None, false, 0, {}, {}, {})
  }

  lemma {:induction false} RunKeeps(events: seq<Event>)
    ensures Inv(Run(Enrolled(), events))
  {
    if events != [] {
      RunKeeps(events[..|events| - 1]);
      StepKeeps(Run(Enrolled(), events[..|events| - 1]), events[|events| - 1]);
    }
  }

  /**
   Over every run, with acknowledgements lost, saves failing in any way and the
   process restarting anywhere: an identity is sent in one batch only, its counters
   are cleaned only once that batch was acknowledged, what is sent reads exactly
   its nodes, and a pending plan and its remaining rules partition the meters.
   */
  lemma SettledOnce(events: seq<Event>)
    ensures var w := Run(Enrolled(), events);
            && (forall f, g, m :: f in w.sent && g in w.sent && m in f.nodes && m in g.nodes ==> f == g)
            && (forall m :: m in w.cleaned ==> exists f :: f in w.sent && m in f.nodes && f.batch in w.acked)
            && (forall f :: f in w.sent ==> CounterIDs(f.batch.counters) == NodeIDs(f.nodes))
            && (w.mem.retirement.Some? ==>
                 var p := w.mem.retirement.value;
                 NodeIDs(p.nodes) !! RuleIDs(p.remaining) && NodeIDs(p.nodes) + RuleIDs(p.remaining) == NodeIDs(w.mem.meters))
  {
    RunKeeps(events);
    var w := Run(Enrolled(), events);
    forall m | m in w.cleaned
      ensures exists f :: f in w.sent && m in f.nodes && f.batch in w.acked
    {
      assert Settled(w, m);
    }
    if w.mem.retirement.Some? {
      var p := w.mem.retirement.value;
      assert NodeIDs(p.nodes) <= NodeIDs(w.mem.meters);
    }
  }

  // ---------------------------------------------------------------- progress

  lemma WithoutSnoc(s: seq<Identity>, m: Identity, a: set<int>)
    ensures Without(s + [m], a) == Without(s, a) + (if m.node in a then [] else [m])
  {
    assert (s + [m])[..|s|] == s;
  }

  lemma {:induction false} WithoutWithout(s: seq<Identity>, a: set<int>, b: set<int>)
    ensures Without(Without(s, a), b) == Without(s, a + b)
  {
    if s != [] {
      var n := |s| - 1;
      WithoutWithout(s[..n], a, b);
      WithoutSnoc(Without(s[..n], a), s[n], b);
      if s[n].node in a {
        assert Without(s, a) == Without(s[..n], a);
      } else {
        assert Without(s, a) == Without(s[..n], a) + [s[n]];
      }
    }
  }

  lemma {:induction false} WithoutPrefix(ids: seq<Identity>, k: nat)
    requires Distinct(ids) && k <= |ids|
    ensures Without(ids, NodeIDs(ids[..k])) == ids[k..]
  {
    if ids != [] {
      var n := |ids| - 1;
      if k <= n {
        WithoutPrefix(ids[..n], k);
        assert ids[..n][..k] == ids[..k];
        assert ids[k..] == ids[..n][k..] + [ids[n]];
      } else {
        assert ids[..k] == ids;
        WithoutEvery(ids, NodeIDs(ids));
      }
    }
  }

  lemma {:induction false} WithoutEvery(ids: seq<Identity>, all: set<int>)
    requires forall i :: 0 <= i < |ids| ==> ids[i].node in all
    ensures Without(ids, all) == []
  {
    if ids != [] {
      WithoutEvery(ids[..|ids| - 1], all);
    }
  }

  /** Settling the first k stale identities leaves the other stale ones. */
  lemma StaleAfter(meters: seq<Identity>, active: set<int>, k: nat)
    requires Distinct(meters) && k <= |Without(meters, active)|
    ensures var gone := NodeIDs(Without(meters, active)[..k]);
            Without(Without(meters, gone), active) == Without(meters, active)[k..]
  {
    var gone := NodeIDs(Without(meters, active)[..k]);
    WithoutDistinct(meters, active);
    WithoutWithout(meters, gone, active);
    WithoutWithout(meters, active, gone);
    assert active + gone == gone + active;
    WithoutPrefix(Without(meters, active), k);
  }

  /** The world after a round in which everything succeeds. */
  lemma RoundEnds(w: World, ts: int, counters: seq<Counter>)
    requires MayBegin(w) && ValidPlan(NextPlan(w, ts, counters))
    ensures var p := NextPlan(w, ts, counters);
            var v := Flush(Begin(w, ts, Some(counters), false, Saved), Answer(1, Digest(ts, counters)), Saved, Cleaned, Saved);
            && v.mem.retirement.None? && v.desired == w.desired
            && v.mem.meters == Without(w.mem.meters, NodeIDs(p.nodes))
            && v.cleaned == w.cleaned + Members(p.nodes)
  {
  }

  /** A round in which everything succeeds settles the first batch of stale identities and nothing else. */
  lemma RoundShrinks(w: World, ts: int, counters: seq<Counter>)
    requires Inv(w) && MayBegin(w)
    requires ValidPlan(NextPlan(w, ts, counters))
    ensures var active := Active(w.desired.value).Keys;
            var stale := Without(w.mem.meters, active);
            var v := Flush(Begin(w, ts, Some(counters), false, Saved), Answer(1, Digest(ts, counters)), Saved, Cleaned, Saved);
            && v.mem.retirement.None? && v.desired == w.desired
            && Without(v.mem.meters, active) == stale[|First(stale, BATCH_SIZE)|..]
            && |Without(v.mem.meters, active)| < |stale|
            && v.cleaned == w.cleaned + Members(First(stale, BATCH_SIZE))
  {
    var active := Active(w.desired.value).Keys;
    var stale := Without(w.mem.meters, active);
    var nodes := NextPlan(w, ts, counters).nodes;
    assert nodes == stale[..|First(stale, BATCH_SIZE)|];
    RoundEnds(w, ts, counters);
    StaleAfter(w.mem.meters, active, |nodes|);
  }

  /** This step puts a configuration into force. */
  predicate Applies(w: World, e: Event) {
    e.DoConverge? && w.mem.retirement.None? && Fits(w, e.nodes) && e.applied && e.first.Saved?
  }

  /** The nodes of the configuration last put into force. */
  ghost function Wanted(events: seq<Event>): set<int> {
    if events == [] then {}
    else
      var n := |events| - 1;
      if Applies(Run(Enrolled(), events[..n]), events[n]) then Active(events[n].nodes).Keys else Wanted(events[..n])
  }

  /** A plan settles somebody, and nobody who is wanted. */
  ghost predicate Spares(s: State, wanted: set<int>) {
    s.retirement.Some? ==> s.retirement.value.nodes != [] && NodeIDs(s.retirement.value.nodes) !! wanted
  }

  /** Two states hold the same pending plan over the same meters. */
  ghost predicate SamePlan(s: State, t: State) {
    && s.retirement.Some? && t.retirement.Some? && Freeze(s.retirement.value) == Freeze(t.retirement.value)
    && s.meters == t.meters
  }

  /** The second state is the first one with its pending plan completed. */
  ghost predicate Completed(s: State, t: State) {
    s.retirement.Some? && t.retirement.None? && t.meters == Without(s.meters, NodeIDs(s.retirement.value.nodes))
  }

  /** The file holds the pending plan of memory, or its completion. */
  ghost predicate Tracked(w: World, wanted: set<int>) {
    && Spares(w.mem, wanted) && Spares(w.disk, wanted)
    && (w.desired.Some? ==> Active(w.desired.value).Keys == wanted)
    && (w.mem.retirement.Some? ==> SamePlan(w.mem, w.disk) || Completed(w.mem, w.disk))
  }

  /** What a step may do to a pending plan. */
  ghost predicate Proceeds(w: World, v: World) {
    w.mem.retirement.Some? ==> SamePlan(w.mem, v.mem) || Completed(w.mem, v.mem)
  }

  lemma CommitTracks(w: World, next: State, save: Save, wanted: set<int>)
    requires Tracked(w, wanted) && Spares(next, wanted)
    requires w.mem.retirement.Some? ==> SamePlan(w.mem, next) || Completed(w.mem, next)
    ensures Tracked(Commit(w, next, save), wanted) && Proceeds(w, Commit(w, next, save))
  {
  }

  lemma BeginTracks(w: World, ts: int, read: Option<seq<Counter>>, oversize: bool, save: Save, wanted: set<int>)
    requires Inv(w) && Tracked(w, wanted)
    ensures var v := Begin(w, ts, read, oversize, save); Tracked(v, wanted) && Proceeds(w, v)
  {
    if MayBegin(w) && read.Some? {
      var p := NextPlan(w, ts, read.value);
      var active := Active(w.desired.value).Keys;
      WithoutMembers(w.mem.meters, active);
      if p.nodes != [] {
        CommitTracks(w, w.mem.(retirement := Some(p)), save, wanted);
      }
    }
  }

  lemma CleanUpTracks(w: World, p: Plan, clean: Cleaning, save: Save, wanted: set<int>)
    requires Tracked(w, wanted) && w.mem.retirement == Some(p)
    ensures var v := CleanUp(w, p, clean, save); Tracked(v, wanted) && Proceeds(w, v)
  {
    if clean.Cleaned? {
      CommitTracks(w.(cleaned := w.cleaned + Members(p.nodes)), Forget(w.mem, p), save, wanted);
    }
  }

  lemma ExchangeTracks(w: World, p: Plan, reply: Reply, save: Save, wanted: set<int>)
    requires Tracked(w, wanted) && w.mem.retirement == Some(p)
    ensures var v := Exchange(w, p, reply, save); Tracked(v, wanted) && Proceeds(w, v)
  {
    if Confirms(reply, p) {
      CommitTracks(Acked(Sent(w, p), p), w.mem.(retirement := Some(p.(acked := true))), save, wanted);
    }
  }

  lemma ProceedsOn(w: World, u: World, v: World)
    requires Proceeds(w, u) && SamePlan(w.mem, u.mem) && Proceeds(u, v)
    ensures Proceeds(w, v)
  {
  }

  lemma SettleTracks(w: World, p: Plan, reply: Reply, ackSave: Save, clean: Cleaning, save: Save, wanted: set<int>)
    requires Tracked(w, wanted) && w.mem.retirement == Some(p)
    ensures var v := Settle(w, p, reply, ackSave, clean, save); Tracked(v, wanted) && Proceeds(w, v)
  {
    if p.acked {
      CleanUpTracks(w, p, clean, save, wanted);
    } else {
      ExchangeTracks(w, p, reply, ackSave, wanted);
      if Confirms(reply, p) && ackSave.Saved? {
        ExchangeRecords(w, p, reply, ackSave);
        var u := Exchange(w, p, reply, ackSave);
        CleanUpTracks(u, p.(acked := true), clean, save, wanted);
        ProceedsOn(w, u, Settle(w, p, reply, ackSave, clean, save));
      }
    }
  }

  lemma SaveAllTracks(w: World, save: Save, wanted: set<int>)
    requires Tracked(w, wanted)
    ensures Tracked(SaveAll(w, save), wanted) && Proceeds(w, SaveAll(w, save))
  {
  }

  /** Without a plan in memory or file anything may come into force. */
  lemma InForceTracks(w: World, nodes: seq<Node>, last: Save)
    requires w.mem.retirement.None? && w.disk.retirement.None?
    ensures Tracked(SaveAll(InForce(w, nodes), last), Active(nodes).Keys)
  {
  }

  lemma FailingTracks(w: World, last: Save, wanted: set<int>)
    requires Tracked(w, wanted) && w.mem.retirement.None?
    ensures Tracked(SaveAll(Failing(w), last), wanted)
  {
    SaveAllTracks(Failing(w), last, wanted);
  }

  /** The first save of an attempt leaves no plan in memory, and none in the file once it succeeded. */
  lemma RememberTracks(w: World, nodes: seq<Node>, first: Save, wanted: set<int>)
    requires Tracked(w, wanted) && w.mem.retirement.None?
    ensures var r := SaveAll(Remembered(w, nodes), first);
            Tracked(r, wanted) && (!first.Died() ==> r.mem.retirement.None?) && (first.Saved? ==> r.disk.retirement.None?)
  {
    SaveAllTracks(Remembered(w, nodes), first, wanted);
  }

  lemma AttemptTracks(w: World, nodes: seq<Node>, first: Save, applied: bool, last: Save, wanted: set<int>)
    requires Tracked(w, wanted) && w.mem.retirement.None? && Fits(w, nodes)
    ensures Tracked(Converge(w, nodes, first, applied, last), if applied && first.Saved? then Active(nodes).Keys else wanted)
  {
    RememberTracks(w, nodes, first, wanted);
    var r := SaveAll(Remembered(w, nodes), first);
    if applied && first.Saved? {
      InForceTracks(r, nodes, last);
    } else if !first.Died() {
      FailingTracks(r, last, wanted);
    }
  }

  lemma ConvergeTracks(w: World, nodes: seq<Node>, first: Save, applied: bool, last: Save, wanted: set<int>)
    requires Tracked(w, wanted)
    ensures var v := Converge(w, nodes, first, applied, last);
            Tracked(v, if Applies(w, DoConverge(nodes, first, applied, last)) then Active(nodes).Keys else wanted) && Proceeds(w, v)
  {
    if w.mem.retirement.None? {
      if Fits(w, nodes) {
        AttemptTracks(w, nodes, first, applied, last, wanted);
      } else {
        FailingTracks(w, last, wanted);
      }
    }
  }

  lemma StepTracks(w: World, e: Event, wanted: set<int>)
    requires Inv(w) && Tracked(w, wanted)
    ensures Tracked(Step(w, e), if Applies(w, e) then Active(e.nodes).Keys else wanted) && Proceeds(w, Step(w, e))
  {
    match e
    case DoBegin(ts, read, oversize, save) => BeginTracks(w, ts, read, oversize, save, wanted);
    case DoFlush(reply, ackSave, clean, save) =>
      if w.mem.retirement.Some? && ValidPlan(w.mem.retirement.value) {
        SettleTracks(w, w.mem.retirement.value, reply, ackSave, clean, save, wanted);
      }
    case DoConverge(nodes, first, applied, last) => ConvergeTracks(w, nodes, first, applied, last, wanted);
    case DoSave(save) => SaveAllTracks(w, save, wanted);
    case DoNegotiate(_) =>
    case DoRestart => SaveAllTracks(w, DiedBefore, wanted);
  }

  lemma {:induction false} RunTracks(events: seq<Event>)
    ensures Tracked(Run(Enrolled(), events), Wanted(events))
  {
    if events != [] {
      var n := |events| - 1;
      RunKeeps(events[..n]);
      RunTracks(events[..n]);
      StepTracks(Run(Enrolled(), events[..n]), events[n], Wanted(events[..n]));
    }
  }

  lemma {:induction false} WithoutShorter(s: seq<Identity>, ids: set<int>, m: Identity)
    requires m in s && m.node in ids
    ensures |Without(s, ids)| < |s|
  {
    var n := |s| - 1;
    WithoutLength(s[..n], ids);
    if s[n].node !in ids {
      WithoutShorter(s[..n], ids, m);
    }
  }

  lemma {:induction false} WithoutLength(s: seq<Identity>, ids: set<int>)
    ensures |Without(s, ids)| <= |s|
  {
    if s != [] {
      WithoutLength(s[..|s| - 1], ids);
    }
  }

  /** Completing a plan that spares the wanted takes its nodes, and only them, out of the stale ones. */
  lemma CompletionShrinks(s: State, t: State, wanted: set<int>)
    requires Completed(s, t) && Spares(s, wanted) && Covers(s.retirement.value, s.meters)
    ensures var gone := NodeIDs(s.retirement.value.nodes);
            && Without(t.meters, wanted) == Without(Without(s.meters, wanted), gone)
            && |Without(t.meters, wanted)| < |Without(s.meters, wanted)|
  {
    var p := s.retirement.value;
    var gone := NodeIDs(p.nodes);
    WithoutWithout(s.meters, gone, wanted);
    WithoutWithout(s.meters, wanted, gone);
    assert gone + wanted == wanted + gone;
    assert p.nodes[0].node in gone && p.nodes[0] in s.meters;
    WithoutMembers(s.meters, wanted);
    WithoutShorter(Without(s.meters, wanted), gone, p.nodes[0]);
  }

  /**
   Over every run, with answers lost, saves failing in any way and restarts anywhere:
   a step leaves a pending plan as it is, with the same meters and the same wanted
   nodes, or it completes the round. Then exactly the frozen nodes, none of them
   wanted, have left the stale set, which is strictly smaller.
   */
  lemma RoundsShrinkStale(events: seq<Event>, e: Event)
    requires Run(Enrolled(), events).mem.retirement.Some?
    ensures var w, v := Run(Enrolled(), events), Run(Enrolled(), events + [e]);
            var gone := NodeIDs(w.mem.retirement.value.nodes);
            var wanted := Wanted(events);
            && Wanted(events + [e]) == wanted && gone !! wanted
            && (SamePlan(w.mem, v.mem) ||
                (&& v.mem.retirement.None?
                 && Without(v.mem.meters, wanted) == Without(Without(w.mem.meters, wanted), gone)
                 && |Without(v.mem.meters, wanted)| < |Without(w.mem.meters, wanted)|))
  {
    assert (events + [e])[..|events|] == events;
    RunKeeps(events);
    RunTracks(events);
    var w := Run(Enrolled(), events);
    StepTracks(w, e, Wanted(events));
    var v := Step(w, e);
    if Completed(w.mem, v.mem) {
      CompletionShrinks(w.mem, v.mem, Wanted(events));
    }
  }

  // ---------------------------------------------------------------- the agent

  /** The agent's fields and the operations that update them step by step. */
  class Agent {
    var state: State
    var file: State
    var desired: Option<seq<Node>>
    var finalMeters: bool
    var issued: nat
    ghost var sent: set<Frozen>
    ghost var acked: set<Batch>
    ghost var cleaned: set<Identity>

    ghost function Now(): World
      reads this
    {
      World(state, file, desired, finalMeters, issued, sent, acked, cleaned)
    }

    constructor ()
      ensures Now() == Enrolled()
    {
      state, file := State([], None, false, false), State([], None, false, false);
      desired, finalMeters, issued, sent, acked, cleaned := None, false, 0, {}, {}, {};
    }

    /** State.Save; a process that died comes back with what the file holds. */
    method Persist(save: Save) returns (ok: bool)
      modifies this
      ensures Now() == SaveAll(old(Now()), save) && (ok <==> save.Saved?)
    {
      file := File(state, file, save);
      if save.Died() {
        state, desired, finalMeters := file, None, false;
      }
      ok := save.Saved?;
    }

    method BeginRetirement(ts: int, read: Option<seq<Counter>>, oversize: bool, save: Save)
      modifies this
      ensures Now() == Begin(old(Now()), ts, read, oversize, save)
    {
      if state.retirement.Some? || !finalMeters || !state.metering || state.failed || desired.None? || read.None? {
        return;
      }
      var active := Active(desired.value);
      var nodes := SelectStale(state.meters, active.Keys);
      if nodes == [] {
        return;
      }
      var remaining := RemainingRules(state.meters, NodeIDs(nodes), active);
      var batch := Batch(Digest(ts, read.value), ts, read.value);
      var ok := ValidateBatch(batch);
      if !ok || oversize {
        return;
      }
      var before := state;
      state := state.(retirement := Some(Plan(batch, nodes, remaining, false)));
      ok := Persist(save);
      if !ok && !save.Died() {
        state := before;
      }
    }

    /** Cleaning, then forgetting; reached only with a durable acknowledgement. */
    method CleanAndForget(p: Plan, clean: Cleaning, save: Save)
      modifies this
      ensures Now() == CleanUp(old(Now()), p, clean, save)
    {
      if clean.Stopped? || clean.DiedCleaning? {
        cleaned := cleaned + (Members(p.nodes) * clean.part);
        if clean.DiedCleaning? {
          state, desired, finalMeters := file, None, false;
        }
        return;
      }
      cleaned := cleaned + Members(p.nodes);
      var before := state;
      var kept := KeepOthers(state.meters, NodeIDs(p.nodes));
      state := state.(meters := kept, retirement := None);
      var ok := Persist(save);
      if !ok && !save.Died() {
        state := before;
      }
    }

    method SendAndRecord(p: Plan, reply: Reply, save: Save)
      modifies this
      ensures Now() == Exchange(old(Now()), p, reply, save)
    {
      sent := sent + {Freeze(p)};
      if reply.DiedWaiting? {
        state, desired, finalMeters := file, None, false;
      }
      if !(reply.Answer? && reply.version >= 1 && reply.ack == p.batch.id) {
        return;
      }
      acked := acked + {p.batch};
      var before := state;
      state := state.(retirement := Some(p.(acked := true)));
      var ok := Persist(save);
      if !ok && !save.Died() {
        state := before;
      }
    }

    method SettlePlan(p: Plan, reply: Reply, ackSave: Save, clean: Cleaning, save: Save)
      modifies this
      ensures Now() == Settle(old(Now()), p, reply, ackSave, clean, save)
    {
      if p.acked {
        CleanAndForget(p, clean, save);
        return;
      }
      SendAndRecord(p, reply, ackSave);
      if Confirms(reply, p) && ackSave.Saved? {
        CleanAndForget(p.(acked := true), clean, save);
      }
    }

    method FlushRetirement(reply: Reply, ackSave: Save, clean: Cleaning, save: Save)
      modifies this
      ensures Now() == Flush(old(Now()), reply, ackSave, clean, save)
    {
      var pending := state.retirement;
      if pending.None? {
        return;
      }
      ghost var w := Now();
      var ok := ValidatePlan(pending.value);
      if !ok {
        return;
      }
      SettlePlan(pending.value, reply, ackSave, clean, save);
      assert Now() == Flush(w, reply, ackSave, clean, save);
    }

    /** The end of a converge attempt. */
    method RecordResult(nodes: seq<Node>, inForce: bool, last: Save)
      modifies this
      ensures Now() == SaveAll(if inForce then InForce(old(Now()), nodes) else Failing(old(Now())), last)
    {
      if inForce {
        state, desired := state.(metering := true, failed := false), Some(nodes);
      } else {
        state := state.(failed := true);
      }
      var ok := Persist(last);
    }

    /** The beginning of a converge attempt. */
    method RememberMeters(nodes: seq<Node>, first: Save) returns (fits: bool)
      modifies this
      ensures fits <==> Fits(old(Now()), nodes)
      ensures Now() == Remember(old(Now()), nodes, first)
    {
      var more := NewIdentities(state.meters, nodes, issued);
      if more != [] && |state.meters| + |more| > MAX_IDENTITIES {
        return false;
      }
      state := state.(meters := state.meters + more);
      issued := issued + |more|;
      var ok := Persist(first);
      return true;
    }

    /** One converge attempt behind the gate of a pending settlement. */
    method ConvergeDesired(nodes: seq<Node>, first: Save, applied: bool, last: Save)
      modifies this
      ensures Now() == Converge(old(Now()), nodes, first, applied, last)
    {
      if state.retirement.Some? {
        return;
      }
      ghost var w := Now();
      var fits := RememberMeters(nodes, first);
      if fits && first.Died() {
        return;
      }
      RecordResult(nodes, fits && applied && first.Saved?, last);
      assert Now() == Converge(w, nodes, first, applied, last);
    }
  }
}
