/**
 Rotating the lookup budget (prepare in internal/agent/network_binding.go). Each apply
 visits the nodes in a circle from a remembered starting point and performs name
 lookups until the batch's time is used up; the next batch resumes behind the last
 lookup. The list handed to the core keeps the configured order.
 */
module Rotation {
  import Cyclic

  datatype Node = Node(id: int, spec: string)

  ghost predicate Distinct(nodes: seq<Node>) {
    forall i, j :: 0 <= i < j < |nodes| ==> nodes[i].id != nodes[j].id
  }

  /** The index of the remembered node, or 0 when it is gone. */
  method FindStart(nodes: seq<Node>, next: int) returns (start: nat)
    ensures nodes != [] ==> start < |nodes|
    ensures nodes == [] ==> start == 0
    ensures (exists k :: 0 <= k < |nodes| && nodes[k].id == next) ==> start < |nodes| && nodes[start].id == next
    ensures (forall k :: 0 <= k < |nodes| ==> nodes[k].id != next) ==> start == 0
    ensures forall k :: 0 <= k < start ==> nodes[k].id != next
  {
    start := 0;
    for i := 0 to |nodes|
      invariant forall k :: 0 <= k < i ==> nodes[k].id != next
      invariant start == 0
    {
      if nodes[i].id == next {
        return i;
      }
    }
  }

  // ---------------------------------------------------------------- order

  /** The nodes whose preparation succeeded, in the configured order. */
  function Kept(nodes: seq<Node>, ready: seq<bool>): seq<Node>
    requires |ready| == |nodes|
  {
    if nodes == [] then []
    else
      var n := |nodes| - 1;
      Kept(nodes[..n], ready[..n]) + (if ready[n] then [nodes[n]] else [])
  }

  /** The indices of the ready ones, in order. */
  function Picks(ready: seq<bool>): seq<nat> {
    if ready == [] then []
    else
      var n := |ready| - 1;
      Picks(ready[..n]) + (if ready[n] then [n] else [])
  }

  lemma {:induction false} PicksExactly(ready: seq<bool>)
    ensures var p := Picks(ready);
            && (forall i :: 0 <= i < |p| ==> p[i] < |ready| && ready[p[i]])
            && (forall i, j :: 0 <= i < j < |p| ==> p[i] < p[j])
            && (forall k :: 0 <= k < |ready| && ready[k] ==> k in p)
  {
    if ready != [] {
      PicksExactly(ready[..|ready| - 1]);
    }
  }

  lemma {:induction false} KeptPicks(nodes: seq<Node>, ready: seq<bool>)
    requires |ready| == |nodes|
    ensures var p := Picks(ready);
            |Kept(nodes, ready)| == |p| && forall i :: 0 <= i < |p| ==> p[i] < |nodes| && Kept(nodes, ready)[i] == nodes[p[i]]
  {
    if ready != [] {
      KeptPicks(nodes[..|nodes| - 1], ready[..|ready| - 1]);
    }
  }

  /** The kept nodes are exactly the ready ones, in configured order. */
  lemma KeptInOrder(nodes: seq<Node>, ready: seq<bool>)
    requires |ready| == |nodes|
    ensures var p := Picks(ready);
            && |Kept(nodes, ready)| == |p|
            && (forall i :: 0 <= i < |p| ==> p[i] < |ready| && ready[p[i]] && Kept(nodes, ready)[i] == nodes[p[i]])
            && (forall i, j :: 0 <= i < j < |p| ==> p[i] < p[j])
            && (forall k :: 0 <= k < |ready| && ready[k] ==> k in p)
  {
    PicksExactly(ready);
    KeptPicks(nodes, ready);
  }

  /** The step at which a circle from `start` reaches index `i`. */
  function Offset(i: nat, start: nat, n: nat): (d: nat)
    requires i < n && start < n
    ensures d < n && Cyclic.Slot(start + d, n) == i
  {
    if i >= start then i - start else i + n - start
  }

  /** Visiting in a circle and then listing in configured order gives the same list for every start. */
  method CoreNodes(nodes: seq<Node>, ready: seq<bool>, start: nat) returns (out: seq<Node>)
    requires |ready| == |nodes| && Distinct(nodes) && (nodes != [] ==> start < |nodes|)
    ensures out == Kept(nodes, ready)
  {
    var n := |nodes|;
    var prepared: set<int> := {};
    for step := 0 to n
      invariant forall i :: 0 <= i < n ==> (nodes[i].id in prepared <==> ready[i] && Offset(i, start, n) < step)
    {
      var i := Cyclic.Slot(start + step, n);
      assert Offset(i, start, n) == step;
      if ready[i] {
        prepared := prepared + {nodes[i].id};
      }
    }
    out := [];
    for i := 0 to n
      invariant out == Kept(nodes[..i], ready[..i])
    {
      assert nodes[..i + 1][..i] == nodes[..i] && ready[..i + 1][..i] == ready[..i];
      if nodes[i].id in prepared {
        out := out + [nodes[i]];
      }
    }
    assert nodes[..n] == nodes && ready[..n] == ready;
  }

  // ---------------------------------------------------------------- the forwards keep the rotated order

  /** The ready ones in the order of a circle from `start`, after some steps. */
  function Turned(nodes: seq<Node>, ready: seq<bool>, start: nat, steps: nat): seq<Node>
    requires |ready| == |nodes| && start < |nodes| && steps <= |nodes|
  {
    if steps == 0 then []
    else
      var i := Cyclic.Slot(start + steps - 1, |nodes|);
      Turned(nodes, ready, start, steps - 1) + (if ready[i] then [nodes[i]] else [])
  }

  /** The loop over forwards appends while it goes around, so its list is rotated. */
  method ForwardList(nodes: seq<Node>, ready: seq<bool>, start: nat) returns (out: seq<Node>)
    requires |ready| == |nodes| && start < |nodes|
    ensures out == Kept(nodes[start..], ready[start..]) + Kept(nodes[..start], ready[..start])
  {
    out := [];
    for step := 0 to |nodes|
      invariant out == Turned(nodes, ready, start, step)
    {
      var i := Cyclic.Slot(start + step, |nodes|);
      if ready[i] {
        out := out + [nodes[i]];
      }
    }
    TurnedFront(nodes, ready, start, start);
    assert nodes[start..|nodes|] == nodes[start..] && ready[start..|nodes|] == ready[start..];
    assert nodes[0..start] == nodes[..start] && ready[0..start] == ready[..start];
  }

  lemma KeptSnoc(nodes: seq<Node>, ready: seq<bool>, a: nat, b: nat)
    requires |ready| == |nodes| && a < b <= |nodes|
    ensures Kept(nodes[a..b], ready[a..b]) ==
      Kept(nodes[a..b - 1], ready[a..b - 1]) + (if ready[b - 1] then [nodes[b - 1]] else [])
  {
    assert nodes[a..b][..b - a - 1] == nodes[a..b - 1] && ready[a..b][..b - a - 1] == ready[a..b - 1];
  }

  /** From the starting point to the end of the list. */
  lemma {:induction false} TurnedBack(nodes: seq<Node>, ready: seq<bool>, start: nat, steps: nat)
    requires |ready| == |nodes| && start < |nodes| && start + steps <= |nodes|
    ensures Turned(nodes, ready, start, steps) == Kept(nodes[start..start + steps], ready[start..start + steps])
  {
    if steps > 0 {
      TurnedBack(nodes, ready, start, steps - 1);
      KeptSnoc(nodes, ready, start, start + steps);
    }
  }

  /** From the beginning of the list to the starting point. */
  lemma {:induction false} TurnedFront(nodes: seq<Node>, ready: seq<bool>, start: nat, k: nat)
    requires |ready| == |nodes| && start < |nodes| && k <= start
    ensures Turned(nodes, ready, start, |nodes| - start + k) ==
      Kept(nodes[start..|nodes|], ready[start..|nodes|]) + Kept(nodes[0..k], ready[0..k])
  {
    if k == 0 {
      TurnedBack(nodes, ready, start, |nodes| - start);
    } else {
      TurnedFront(nodes, ready, start, k - 1);
      KeptSnoc(nodes, ready, 0, k);
    }
  }

  lemma {:induction false} KeptSplit(nodes: seq<Node>, ready: seq<bool>, k: nat)
    requires |ready| == |nodes| && k <= |nodes|
    ensures Kept(nodes, ready) == Kept(nodes[..k], ready[..k]) + Kept(nodes[k..], ready[k..])
  {
    var n := |nodes| - 1;
    if k == |nodes| {
      assert nodes[..k] == nodes && ready[..k] == ready;
    } else {
      KeptSplit(nodes[..n], ready[..n], k);
      assert nodes[..n][..k] == nodes[..k] && ready[..n][..k] == ready[..k];
      assert nodes[k..][..n - k] == nodes[..n][k..] && ready[k..][..n - k] == ready[..n][k..];
    }
  }

  lemma {:induction false} KeptMembers(nodes: seq<Node>, ready: seq<bool>, m: Node)
    requires |ready| == |nodes|
    ensures m in Kept(nodes, ready) ==> exists i :: 0 <= i < |nodes| && nodes[i] == m
  {
    if nodes != [] {
      KeptMembers(nodes[..|nodes| - 1], ready[..|nodes| - 1], m);
    }
  }

  /**
   Unlike the nodes, the forwards come out in the configured order exactly when those
   ready all lie on one side of the starting point. They are always the same ones.
   */
  lemma ForwardOrderIff(nodes: seq<Node>, ready: seq<bool>, start: nat)
    requires |ready| == |nodes| && start < |nodes| && Distinct(nodes)
    ensures var front, back := Kept(nodes[..start], ready[..start]), Kept(nodes[start..], ready[start..]);
            && (back + front == Kept(nodes, ready) <==> front == [] || back == [])
            && multiset(back + front) == multiset(Kept(nodes, ready))
  {
    var front, back := Kept(nodes[..start], ready[..start]), Kept(nodes[start..], ready[start..]);
    KeptSplit(nodes, ready, start);
    assert back + front == Kept(nodes, ready) <== front == [] || back == [];
    if front != [] && back != [] {
      KeptMembers(nodes[..start], ready[..start], front[0]);
      KeptMembers(nodes[start..], ready[start..], back[0]);
      assert (back + front)[0] == back[0] && (front + back)[0] == front[0];
    }
  }

  /** Two ready forwards visited from the second one come out exchanged. */
  lemma ForwardOrderMayTurn(a: Node, b: Node)
    requires a.id != b.id
    ensures Turned([a, b], [true, true], 1, 2) == [b, a]
    ensures Kept([a, b], [true, true]) == [a, b]
  {
    assert [a, b][..1] == [a] && [true, true][..1] == [true];
    assert Turned([a, b], [true, true], 1, 1) == [b];
    assert Kept([a], [true]) == Kept([a][..0], [true][..0]) + [a];
  }

  // ---------------------------------------------------------------- fairness

  /** A batch: which indices still need a lookup, and how many lookups start before the time is used up. */
  datatype Batch = Batch(needs: set<nat>, budget: nat)

  /** After `steps` visited nodes: lookups started, and one past the step of the last of them. */
  function Scan(n: nat, start: nat, b: Batch, steps: nat): (r: (nat, nat))
    requires start < n && steps <= n
    ensures r.0 <= b.budget && r.1 <= steps
  {
    if steps == 0 then (0, 0)
    else
      var (count, resume) := Scan(n, start, b, steps - 1);
      if Cyclic.Slot(start + steps - 1, n) in b.needs && count < b.budget then (count + 1, steps) else (count, resume)
  }

  /** Where the next batch starts. */
  function Resume(n: nat, start: nat, b: Batch): (next: nat)
    requires start < n
    ensures next < n
  {
    var k := Scan(n, start, b, n).1;
    if k == 0 then start else Cyclic.Slot(Cyclic.Slot(start + k - 1, n) + 1, n)
  }

  /** A lookup is started for this index in this batch. */
  predicate Attempted(n: nat, start: nat, b: Batch, i: nat)
    requires start < n && i < n
  {
    i in b.needs && Offset(i, start, n) < Scan(n, start, b, n).1
  }

  /** The needing indices reached before step `k`. */
  function Reached(n: nat, start: nat, b: Batch, k: nat): set<nat>
    requires start < n
  {
    set i: nat | i < n && i in b.needs && Offset(i, start, n) < k
  }

  /** One turn around the circle; `k` is one past the step of the last lookup. */
  method Circle(n: nat, start: nat, b: Batch) returns (attempted: set<nat>, k: nat)
    requires start < n
    ensures k == Scan(n, start, b, n).1 && attempted == Reached(n, start, b, k)
  {
    attempted, k := {}, 0;
    var count := 0;
    for step := 0 to n
      invariant (count, k) == Scan(n, start, b, step)
      invariant attempted == Reached(n, start, b, k)
    {
      var i := Cyclic.Slot(start + step, n);
      if i in b.needs && count < b.budget {
        ReachedStep(n, start, b, step);
        attempted, count, k := attempted + {i}, count + 1, step + 1;
      }
    }
  }

  method LookupBatch(nodes: seq<Node>, b: Batch, next: int) returns (attempted: set<nat>, resume: int, start: nat)
    requires nodes != [] && Distinct(nodes)
    ensures start < |nodes| && ((exists k :: 0 <= k < |nodes| && nodes[k].id == next) ==> nodes[start].id == next)
    ensures forall i: nat :: i in attempted <==> i < |nodes| && Attempted(|nodes|, start, b, i)
    ensures resume == if Scan(|nodes|, start, b, |nodes|).1 == 0 then next else nodes[Resume(|nodes|, start, b)].id
  {
    start := FindStart(nodes, next);
    var k: nat;
    attempted, k := Circle(|nodes|, start, b);
    resume := next;
    if k > 0 {
      resume := nodes[Cyclic.Slot(Cyclic.Slot(start + k - 1, |nodes|) + 1, |nodes|)].id;
    }
  }

  /** As long as the budget lasts, nothing that needs a lookup is passed over. */
  lemma {:induction false} ScanFront(n: nat, start: nat, b: Batch, steps: nat)
    requires start < n && steps <= n
    ensures var (count, resume) := Scan(n, start, b, steps);
            forall i: nat :: i < n && i in b.needs && resume <= Offset(i, start, n) < steps ==> count == b.budget
  {
    if steps > 0 {
      ScanFront(n, start, b, steps - 1);
      forall i: nat | i < n && Offset(i, start, n) == steps - 1
        ensures i == Cyclic.Slot(start + steps - 1, n)
      {
      }
    }
  }

  lemma ReachedStep(n: nat, start: nat, b: Batch, step: nat)
    requires start < n && step < n && Cyclic.Slot(start + step, n) in b.needs && Scan(n, start, b, step).0 < b.budget
    ensures Reached(n, start, b, step + 1) == Reached(n, start, b, Scan(n, start, b, step).1) + {Cyclic.Slot(start + step, n)}
  {
    ScanFront(n, start, b, step);
    assert Offset(Cyclic.Slot(start + step, n), start, n) == step;
    forall i: nat | i < n && Offset(i, start, n) == step
      ensures i == Cyclic.Slot(start + step, n)
    {
    }
  }

  lemma {:induction false} ReachedCount(n: nat, start: nat, b: Batch, steps: nat)
    requires start < n && steps <= n
    ensures var (count, k) := Scan(n, start, b, steps); |Reached(n, start, b, k)| == count
  {
    if steps == 0 {
      assert Reached(n, start, b, 0) == {};
    } else {
      ReachedCount(n, start, b, steps - 1);
      var (count, k) := Scan(n, start, b, steps - 1);
      var i := Cyclic.Slot(start + steps - 1, n);
      if i in b.needs && count < b.budget {
        ReachedStep(n, start, b, steps - 1);
        assert Offset(i, start, n) == steps - 1;
      }
    }
  }

  /** A batch starts exactly as many lookups as its time allows, as long as there are needs. */
  lemma LookupsWithinBudget(n: nat, start: nat, b: Batch)
    requires start < n
    ensures var looked := set i: nat | i < n && Attempted(n, start, b, i);
            && looked <= b.needs && |looked| <= b.budget
            && (|looked| < b.budget ==> forall i: nat :: i < n && i in b.needs ==> i in looked)
  {
    ReachedCount(n, start, b, n);
    ScanFront(n, start, b, n);
    assert (set i: nat | i < n && Attempted(n, start, b, i)) == Reached(n, start, b, Scan(n, start, b, n).1);
  }

  lemma {:induction false} ScanStarted(n: nat, start: nat, b: Batch, steps: nat)
    requires start < n && steps <= n
    ensures Scan(n, start, b, steps).0 > 0 <==> Scan(n, start, b, steps).1 > 0
  {
    if steps > 0 {
      ScanStarted(n, start, b, steps - 1);
    }
  }

  /** A batch either looks the node up or moves the start closer to it. */
  lemma CloserOrAttempted(n: nat, start: nat, b: Batch, t: nat)
    requires start < n && t < n && t in b.needs && b.budget > 0
    ensures Attempted(n, start, b, t) || Offset(t, Resume(n, start, b), n) < Offset(t, start, n)
  {
    ScanFront(n, start, b, n);
    ScanStarted(n, start, b, n);
    var k := Scan(n, start, b, n).1;
    if !Attempted(n, start, b, t) {
      MovedCloser(n, start, t, k);
    }
  }

  lemma MovedCloser(n: nat, start: nat, t: nat, k: nat)
    requires start < n && t < n && 0 < k <= Offset(t, start, n)
    ensures Offset(t, Cyclic.Slot(Cyclic.Slot(start + k - 1, n) + 1, n), n) == Offset(t, start, n) - k
  {
  }

  /** The start before each batch. */
  function StartOf(n: nat, start: nat, batches: seq<Batch>): (s: nat)
    requires start < n
    ensures s < n
  {
    if batches == [] then start else Resume(n, StartOf(n, start, batches[..|batches| - 1]), batches[|batches| - 1])
  }

  /**
   With an unchanged list, a node that keeps needing a lookup gets one within as many
   batches as there are nodes, if every batch starts at least one; `k` is that batch.
   */
  lemma {:induction false} AttemptedWithinRound(n: nat, start: nat, batches: seq<Batch>, t: nat, from: nat) returns (k: nat)
    requires start < n && t < n && from <= |batches|
    requires forall j :: 0 <= j < |batches| ==> t in batches[j].needs && batches[j].budget > 0
    requires |batches| - from > Offset(t, StartOf(n, start, batches[..from]), n)
    ensures from <= k < |batches| && Attempted(n, StartOf(n, start, batches[..k]), batches[k], t)
    decreases |batches| - from
  {
    var s := StartOf(n, start, batches[..from]);
    CloserOrAttempted(n, s, batches[from], t);
    if Attempted(n, s, batches[from], t) {
      k := from;
    } else {
      assert batches[..from + 1][..from] == batches[..from];
      k := AttemptedWithinRound(n, start, batches, t, from + 1);
    }
  }

  lemma EveryNodeGetsItsTurn(n: nat, start: nat, batches: seq<Batch>, t: nat) returns (k: nat)
    requires start < n && t < n && |batches| >= n
    requires forall j :: 0 <= j < n ==> t in batches[j].needs && batches[j].budget > 0
    ensures k < n && Attempted(n, StartOf(n, start, batches[..k]), batches[k], t)
  {
    k := AttemptedWithinRound(n, start, batches[..n], t, 0);
    assert batches[..n][..k] == batches[..k];
  }
}
