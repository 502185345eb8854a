/**
 The billing-topology check of internal/agentproto/network_topology.go: two billed
 interfaces must not lie on one chain of parent or master links, or the same
 traffic would be counted twice. The source searches the link graph with a
 worklist for every billed interface, in the order of a map iteration.
 */
module Topology {

  datatype Interface = Interface(id: string, index: int, kind: string, parentIndex: int, masterIndex: int)

  datatype Policy = Policy(mode: string, interfaceIDs: seq<string>)

  datatype Verdict = Accepted | Loopback | Tunnel | Overlap

  const TUNNEL_KINDS := {"wireguard", "tun", "ipip", "gre", "gretap", "sit", "vxlan", "ip6tnl"}

  type Graph = map<int, Interface>

  /** A known interface and one of its links; index zero means "no link". */
  predicate Link(g: Graph, a: int, b: int) {
    a in g && b != 0 && (b == g[a].parentIndex || b == g[a].masterIndex)
  }

  /** A chain of links. */
  ghost predicate Chain(g: Graph, path: seq<int>) {
    path != [] && forall i :: 0 <= i < |path| - 1 ==> Link(g, path[i], path[i + 1])
  }

  ghost predicate Reaches(g: Graph, a: int, b: int) {
    exists path :: Chain(g, path) && path[0] == a && path[|path| - 1] == b
  }

  /** The interface reaches another billed one. */
  ghost predicate Overlaps(g: Graph, billed: set<int>, a: int) {
    exists b :: b in billed && b != a && Reaches(g, a, b)
  }

  lemma ReachesSelf(g: Graph, a: int)
    ensures Reaches(g, a, a)
  {
    assert Chain(g, [a]);
  }

  lemma ReachesStep(g: Graph, a: int, b: int, c: int)
    requires Reaches(g, a, b) && Link(g, b, c)
    ensures Reaches(g, a, c)
  {
    var path :| Chain(g, path) && path[0] == a && path[|path| - 1] == b;
    assert Chain(g, path + [c]);
  }

  /** A set closed under links contains everything its members reach. */
  lemma {:induction false} ClosedContainsPath(g: Graph, seen: set<int>, path: seq<int>)
    requires Chain(g, path) && path[0] in seen
    requires forall a, b :: a in seen && Link(g, a, b) ==> b in seen
    ensures path[|path| - 1] in seen
  {
    if |path| > 1 {
      assert Link(g, path[0], path[1]);
      assert Chain(g, path[1..]) by {
        forall i | 0 <= i < |path[1..]| - 1
          ensures Link(g, path[1..][i], path[1..][i + 1])
        {
          assert Link(g, path[i + 1], path[i + 2]);
        }
      }
      ClosedContainsPath(g, seen, path[1..]);
    }
  }

  /** An interface without links overlaps nothing; one above or below another billed one does. */
  lemma UnlinkedNeverOverlaps(g: Graph, billed: set<int>, a: int)
    requires a in g ==> g[a].parentIndex == 0 && g[a].masterIndex == 0
    ensures !Overlaps(g, billed, a)
  {
    forall path | Chain(g, path) && path[0] == a
      ensures path[|path| - 1] == a
    {
      assert |path| > 1 ==> Link(g, path[0], path[1]);
    }
  }

  lemma NeighboursOverlap(g: Graph, billed: set<int>, a: int, b: int)
    requires a in g && b in billed && b != 0 && b != a && (g[a].parentIndex == b || g[a].masterIndex == b)
    ensures Overlaps(g, billed, a)
  {
    ReachesSelf(g, a);
    ReachesStep(g, a, a, b);
  }

  /** Everything a search can ever mark. */
  function Universe(g: Graph, start: int): set<int> {
    {start} + (set i | i in g :: g[i].parentIndex) + (set i | i in g :: g[i].masterIndex)
  }

  /** Links already followed: each leads to a marked or a waiting interface. */
  ghost predicate Explored(g: Graph, seen: set<int>, queue: seq<int>) {
    forall a, b :: a in seen && Link(g, a, b) ==> b in seen || b in queue
  }

  /** The worklist search from one billed interface. */
  method Search(g: Graph, billed: set<int>, start: int) returns (overlap: bool)
    requires start in g
    ensures overlap <==> Overlaps(g, billed, start)
  {
    var seen := {start};
    var queue := [g[start].parentIndex, g[start].masterIndex];
    ReachesSelf(g, start);
    LinksQueued(g, start, start, [], queue);
    while queue != []
      invariant start in seen && seen <= Universe(g, start)
      invariant seen * billed <= {start}
      invariant Explored(g, seen, queue)
      invariant forall b :: b in seen ==> Reaches(g, start, b)
      invariant forall b :: b in queue ==> b in Universe(g, start) && (b != 0 ==> Reaches(g, start, b))
      decreases Universe(g, start) - seen, |queue|
    {
      var p := queue[0];
      ghost var before := queue;
      queue := queue[1..];
      assert forall b :: b in before <==> b == p || b in queue;
      if p == 0 || p in seen {
        continue;
      }
      seen := seen + {p};
      if p in billed {
        return true;
      }
      if p in g {
        ghost var waiting := queue;
        queue := queue + [g[p].parentIndex, g[p].masterIndex];
        LinksQueued(g, start, p, waiting, queue);
      }
    }
    forall b | b in billed && b != start
      ensures !Reaches(g, start, b)
    {
      assert b !in seen * billed;
      forall path | Chain(g, path) && path[0] == start
        ensures path[|path| - 1] != b
      {
        ClosedContainsPath(g, seen, path);
      }
    }
    return false;
  }

  lemma LinksQueued(g: Graph, start: int, p: int, waiting: seq<int>, queue: seq<int>)
    requires p in g && queue == waiting + [g[p].parentIndex, g[p].masterIndex] && Reaches(g, start, p)
    ensures forall b :: b in queue ==> b in waiting || (b in Universe(g, start) && (b != 0 ==> Reaches(g, start, b)))
    ensures forall b :: b in waiting ==> b in queue
    ensures forall b :: Link(g, p, b) ==> b in queue
  {
    forall b | b in queue
      ensures b in waiting || (b in Universe(g, start) && (b != 0 ==> Reaches(g, start, b)))
    {
      if b !in waiting && b != 0 {
        ReachesStep(g, start, p, b);
      }
    }
    assert queue[|waiting|] == g[p].parentIndex && queue[|waiting| + 1] == g[p].masterIndex;
  }

  /** The lookup tables the source builds; of two interfaces with one key the later wins. */
  function ByID(list: seq<Interface>): map<string, Interface> {
    if list == [] then map[]
    else
      var n := |list| - 1;
      ByID(list[..n])[list[n].id := list[n]]
  }

  function ByIndex(list: seq<Interface>): Graph {
    if list == [] then map[]
    else
      var n := |list| - 1;
      ByIndex(list[..n])[list[n].index := list[n]]
  }

  /** The billed interfaces that the snapshot knows. */
  function Billed(list: seq<Interface>, ids: seq<string>): set<Interface> {
    set id | id in ids && id in ByID(list) :: ByID(list)[id]
  }

  lemma {:induction false} ByIDHolds(list: seq<Interface>, n: Interface)
    requires forall i, j :: 0 <= i < j < |list| ==> list[i].id != list[j].id
    ensures (n.id in ByID(list) && ByID(list)[n.id] == n) <==> n in list
  {
    if list != [] {
      var k := |list| - 1;
      ByIDHolds(list[..k], n);
      assert list == list[..k] + [list[k]];
    }
  }

  /** Of a snapshot with different identities exactly the selected interfaces are billed. */
  lemma BilledExactly(list: seq<Interface>, ids: seq<string>, n: Interface)
    requires forall i, j :: 0 <= i < j < |list| ==> list[i].id != list[j].id
    ensures n in Billed(list, ids) <==> n in list && n.id in ids
  {
    ByIDHolds(list, n);
    forall id | id in ByID(list)
      ensures ByID(list)[id].id == id
    {
      ByIDKeyed(list, id);
    }
  }

  lemma {:induction false} ByIDKeyed(list: seq<Interface>, id: string)
    requires id in ByID(list)
    ensures ByID(list)[id].id == id
  {
    var k := |list| - 1;
    if list[k].id != id {
      ByIDKeyed(list[..k], id);
    }
  }

  /** Every billed interface can be looked up by its index too. */
  lemma {:induction false} BilledIndexKnown(list: seq<Interface>, id: string)
    requires id in ByID(list)
    ensures ByID(list)[id].index in ByIndex(list)
  {
    var n := |list| - 1;
    if list[n].id != id {
      BilledIndexKnown(list[..n], id);
    }
  }

  /** What the check promises, with no mention of a search order. */
  ghost predicate DoubleCounts(list: seq<Interface>, ids: seq<string>) {
    var indices := set n | n in Billed(list, ids) :: n.index;
    exists a :: a in indices && Overlaps(ByIndex(list), indices, a)
  }

  method ValidateBillingTopology(snapshot: seq<Interface>, known: bool, policy: Policy) returns (v: Verdict)
    ensures !known || policy.mode != "interfaces" ==> v == Accepted
    ensures known && policy.mode == "interfaces" ==>
      (v == Accepted <==>
        && (forall n :: n in Billed(snapshot, policy.interfaceIDs) ==> n.kind != "loopback")
        && (|policy.interfaceIDs| > 1 ==> forall n :: n in Billed(snapshot, policy.interfaceIDs) ==> n.kind !in TUNNEL_KINDS)
        && !DoubleCounts(snapshot, policy.interfaceIDs))
    ensures v == Overlap ==> DoubleCounts(snapshot, policy.interfaceIDs)
    ensures v == Loopback ==> exists n :: n in Billed(snapshot, policy.interfaceIDs) && n.kind == "loopback"
    ensures v == Tunnel ==> |policy.interfaceIDs| > 1 && exists n :: n in Billed(snapshot, policy.interfaceIDs) && n.kind in TUNNEL_KINDS
  {
    if !known || policy.mode != "interfaces" {
      return Accepted;
    }
    var byID: map<string, Interface> := map[];
    var byIndex: Graph := map[];
    for i := 0 to |snapshot|
      invariant byID == ByID(snapshot[..i]) && byIndex == ByIndex(snapshot[..i])
    {
      var n := snapshot[i];
      assert snapshot[..i + 1][..i] == snapshot[..i];
      byID := byID[n.id := n];
      byIndex := byIndex[n.index := n];
    }
    assert snapshot[..|snapshot|] == snapshot;
    var ids := policy.interfaceIDs;
    var selected: set<int> := {};
    for i := 0 to |ids|
      invariant selected == set n | n in Billed(snapshot, ids[..i]) :: n.index
      invariant forall n :: n in Billed(snapshot, ids[..i]) ==> n.kind != "loopback" && (|ids| > 1 ==> n.kind !in TUNNEL_KINDS)
    {
      assert ids[..i + 1] == ids[..i] + [ids[i]];
      if ids[i] !in byID {
        assert Billed(snapshot, ids[..i + 1]) == Billed(snapshot, ids[..i]);
        continue;
      }
      var n := byID[ids[i]];
      assert Billed(snapshot, ids[..i + 1]) == Billed(snapshot, ids[..i]) + {n};
      assert n in Billed(snapshot, ids);
      if n.kind == "loopback" {
        return Loopback;
      }
      selected := selected + {n.index};
      if |ids| > 1 && n.kind in TUNNEL_KINDS {
        return Tunnel;
      }
    }
    assert ids[..|ids|] == ids;
    v := SearchAll(snapshot, ids, byIndex, selected);
  }

  /** One search per billed interface, in whatever order the set is walked. */
  method SearchAll(snapshot: seq<Interface>, ids: seq<string>, byIndex: Graph, selected: set<int>) returns (v: Verdict)
    requires byIndex == ByIndex(snapshot) && selected == set n | n in Billed(snapshot, ids) :: n.index
    ensures v == if DoubleCounts(snapshot, ids) then Overlap else Accepted
  {
    var todo := selected;
    while todo != {}
      invariant todo <= selected
      invariant forall a :: a in selected - todo ==> !Overlaps(byIndex, selected, a)
    {
      var index :| index in todo;
      ghost var n :| n in Billed(snapshot, ids) && n.index == index;
      ghost var id :| id in ids && id in ByID(snapshot) && ByID(snapshot)[id] == n;
      BilledIndexKnown(snapshot, id);
      var found := Search(byIndex, selected, index);
      if found {
        return Overlap;
      }
      todo := todo - {index};
    }
    return Accepted;
  }
}
