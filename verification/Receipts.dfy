/**
 Application receipts (internal/agent/node_applications.go, internal/agent/nat.go and
 the bookkeeping at the end of apply in internal/agent/agent.go): which nodes may be
 reported as applied, and under which sequence number a list of receipts is published.
 */
module Receipts {
  import opened Durable

  datatype Node = Node(id: int, core: string, blocked: bool)

  datatype Status = Applied | Failed | Blocked

  datatype Receipt = Receipt(node: int, core: string, status: Status)

  // ---------------------------------------------------------------- one application attempt

  /** How one core's turn ended; after a failure its earlier resources may prove intact. */
  datatype Turn = Done | NoVersion(intact: bool) | NotInstalled(intact: bool) | Refused(intact: bool) {
    predicate Kept() { !Done? && intact }
  }

  /** The protections common to all cores, in the order they are tried. */
  datatype Checks = Checks(bindings: bool, ingress: bool, portMapping: bool) {
    predicate All() { bindings && ingress && portMapping }
  }

  /** What FinishActivation answers, first with the outcome and then, after an error, with a rollback. */
  datatype Finalizer = NoFinalizer | Finalizer(first: bool, second: bool)

  datatype Ledger = Ledger(applied: set<string>, retained: set<string>, attempted: set<string>)

  method RunCores(drivers: seq<string>, turns: map<string, Turn>) returns (l: Ledger)
    requires forall i :: 0 <= i < |drivers| ==> drivers[i] in turns
    ensures l.applied == set d | d in drivers && (turns[d].Done? || turns[d].Kept())
    ensures l.retained == set d | d in drivers && turns[d].Kept()
    ensures l.attempted == set d | d in drivers && !turns[d].Kept()
  {
    l := Ledger({}, {}, {});
    for i := 0 to |drivers|
      invariant l.applied == set d | d in drivers[..i] && (turns[d].Done? || turns[d].Kept())
      invariant l.retained == set d | d in drivers[..i] && turns[d].Kept()
      invariant l.attempted == set d | d in drivers[..i] && !turns[d].Kept()
    {
      var name := drivers[i];
      assert drivers[..i + 1] == drivers[..i] + [name];
      match turns[name]
      case Done => l := l.(applied := l.applied + {name}, attempted := l.attempted + {name});
      case NoVersion(intact) => l := Failing(l, name, intact);
      case NotInstalled(intact) => l := Failing(l, name, intact);
      case Refused(intact) => l := Failing(l, name, intact);
    }
    assert drivers[..|drivers|] == drivers;
  }

  /** A failed core either serves its verified earlier resources or counts as attempted. */
  function Failing(l: Ledger, name: string, intact: bool): Ledger {
    if intact then l.(applied := l.applied + {name}, retained := l.retained + {name})
    else l.(attempted := l.attempted + {name})
  }

  /** The cores that passed everything, and the cores this attempt must finalize. */
  function Conclude(l: Ledger, checks: Checks, affected: set<string>): (r: (set<string>, set<string>))
    ensures r.0 == if checks.All() then l.applied - l.retained else {}
    ensures r.1 == l.attempted + (if checks.All() then {} else if checks.bindings then l.retained else affected)
  {
    if !checks.bindings then ({}, l.attempted + affected)
    else if !checks.ingress || !checks.portMapping then ({}, l.attempted + l.retained)
    else (l.applied - l.retained, l.attempted)
  }

  predicate Commits(f: Finalizer) { f.NoFinalizer? || f.first }

  /** The finalization loop: `stopped` are the cores neither finalized nor rolled back. */
  method FinishCores(drivers: seq<string>, finalizers: map<string, Finalizer>, ready: set<string>, attempted: set<string>)
    returns (left: set<string>, stopped: set<string>)
    requires forall i :: 0 <= i < |drivers| ==> drivers[i] in finalizers
    ensures left == set n | n in ready && !(n in drivers && n in attempted && !Commits(finalizers[n]))
    ensures stopped == set n | n in drivers && n in attempted && !Commits(finalizers[n]) && !finalizers[n].second
  {
    left, stopped := ready, {};
    for i := 0 to |drivers|
      invariant left == set n | n in ready && !(n in drivers[..i] && n in attempted && !Commits(finalizers[n]))
      invariant stopped == set n | n in drivers[..i] && n in attempted && !Commits(finalizers[n]) && !finalizers[n].second
    {
      var name := drivers[i];
      assert drivers[..i + 1] == drivers[..i] + [name];
      if name in attempted && finalizers[name].Finalizer? && !finalizers[name].first {
        left := left - {name};
        if !finalizers[name].second {
          stopped := stopped + {name};
        }
      }
    }
    assert drivers[..|drivers|] == drivers;
  }

  function Prepared(nodes: seq<Node>): map<int, Node> {
    if nodes == [] then map[] else Prepared(nodes[..|nodes| - 1])[nodes[|nodes| - 1].id := nodes[|nodes| - 1]]
  }

  function StatusOf(n: Node, ready: set<string>, prepared: map<int, Node>): Status {
    if n.core !in ready then Failed
    else if n.id !in prepared || prepared[n.id].blocked then Blocked
    else Applied
  }

  function Listed(nodes: seq<Node>, attempted: set<string>, ready: set<string>, prepared: map<int, Node>): seq<Receipt> {
    if nodes == [] then []
    else
      var n := nodes[|nodes| - 1];
      Listed(nodes[..|nodes| - 1], attempted, ready, prepared) +
      (if n.core in attempted then [Receipt(n.id, n.core, StatusOf(n, ready, prepared))] else [])
  }

  method ListReceipts(nodes: seq<Node>, attempted: set<string>, ready: set<string>, prepared: map<int, Node>)
    returns (out: seq<Receipt>)
    ensures out == Listed(nodes, attempted, ready, prepared)
  {
    out := [];
    for i := 0 to |nodes|
      invariant out == Listed(nodes[..i], attempted, ready, prepared)
    {
      var n := nodes[i];
      assert nodes[..i + 1][..i] == nodes[..i];
      if n.core in attempted {
        var status := Failed;
        if n.core in ready {
          status := Applied;
          if n.id !in prepared || prepared[n.id].blocked {
            status := Blocked;
          }
        }
        out := out + [Receipt(n.id, n.core, status)];
      }
    }
    assert nodes[..|nodes|] == nodes;
  }

  lemma {:induction false} ListedMembers(nodes: seq<Node>, attempted: set<string>, ready: set<string>, prepared: map<int, Node>, r: Receipt)
    ensures r in Listed(nodes, attempted, ready, prepared) <==>
      exists n :: n in nodes && n.core in attempted && r == Receipt(n.id, n.core, StatusOf(n, ready, prepared))
  {
    if nodes != [] {
      var k := |nodes| - 1;
      ListedMembers(nodes[..k], attempted, ready, prepared, r);
      assert nodes == nodes[..k] + [nodes[k]];
    }
  }

  lemma {:induction false} PreparedHolds(nodes: seq<Node>, id: int)
    ensures id in Prepared(nodes) ==> Prepared(nodes)[id] in nodes && Prepared(nodes)[id].id == id
    ensures id in Prepared(nodes) <==> exists n :: n in nodes && n.id == id
  {
    if nodes != [] {
      var k := |nodes| - 1;
      PreparedHolds(nodes[..k], id);
      assert nodes == nodes[..k] + [nodes[k]];
    }
  }

  /**
   Everything that went into one attempt; `fence` names the cores concerned when
   admission itself failed and no core was run.
   */
  datatype Attempt = Attempt(
    nodes: seq<Node>, prepared: seq<Node>, fence: Option<set<string>>, drivers: seq<string>, turns: map<string, Turn>,
    checks: Checks, affected: set<string>, finalizers: map<string, Finalizer>)
  {
    ghost predicate Complete() { forall d :: d in drivers ==> d in turns && d in finalizers }
  }

  /**
   When a node may be called applied: its core's own application succeeded, every
   common protection check passed, its finalizer committed, and the node as prepared
   for the core exists and is not blocked.
   */
  ghost predicate Earned(a: Attempt, r: Receipt)
    requires a.Complete()
  {
    && a.fence.None? && r.core in a.drivers && a.turns[r.core].Done?
    && a.checks.All()
    && Commits(a.finalizers[r.core])
    && r.node in Prepared(a.prepared) && !Prepared(a.prepared)[r.node].blocked
  }

  /** The cores an attempt must finalize. */
  ghost function AttemptedBy(a: Attempt): set<string>
    requires a.Complete()
  {
    if a.fence.Some? then a.fence.value else Conclude(LedgerOf(a), a.checks, a.affected).1
  }

  ghost function LedgerOf(a: Attempt): Ledger
    requires a.Complete()
  {
    Ledger(
      set d | d in a.drivers && (a.turns[d].Done? || a.turns[d].Kept()),
      set d | d in a.drivers && a.turns[d].Kept(),
      set d | d in a.drivers && !a.turns[d].Kept())
  }

  /** The cores left ready once their finalizers have answered. */
  ghost function ReadyAfter(a: Attempt): set<string>
    requires a.Complete()
  {
    var passed := if a.fence.Some? then {} else Conclude(LedgerOf(a), a.checks, a.affected).0;
    set n | n in passed && !(n in a.drivers && n in AttemptedBy(a) && !Commits(a.finalizers[n]))
  }

  ghost function ListOf(a: Attempt): seq<Receipt>
    requires a.Complete()
  {
    Listed(a.nodes, AttemptedBy(a), ReadyAfter(a), Prepared(a.prepared))
  }

  /** A node of the desired state is listed as applied exactly when it earned it. */
  lemma AppliedIffEarned(a: Attempt, r: Receipt)
    requires a.Complete() && r.status.Applied?
    ensures r in ListOf(a) <==> Earned(a, r) && exists n :: n in a.nodes && n.id == r.node && n.core == r.core
  {
    ListedMembers(a.nodes, AttemptedBy(a), ReadyAfter(a), Prepared(a.prepared), r);
  }

  /** The node's core was applied, every common check passed and its finalizer committed. */
  predicate CoreCommitted(a: Attempt, core: string)
    requires forall d :: d in a.drivers ==> d in a.turns && d in a.finalizers
  {
    && a.fence.None? && core in a.drivers && a.turns[core].Done?
    && a.checks.bindings && a.checks.ingress && a.checks.portMapping
    && (a.finalizers[core].NoFinalizer? || a.finalizers[core].first)
  }

  /**
   Every desired node of an attempted core is listed, as failed exactly when its core
   did not get all the way, otherwise as blocked exactly when it was not prepared or is
   blocked. Nothing else is listed.
   */
  lemma ListedStatus(a: Attempt, r: Receipt)
    requires a.Complete()
    ensures r in ListOf(a) <==>
      exists n :: n in a.nodes && n.core in AttemptedBy(a) && r.node == n.id && r.core == n.core &&
        r.status == (if !CoreCommitted(a, n.core) then Failed
                     else if n.id in Prepared(a.prepared) && !Prepared(a.prepared)[n.id].blocked then Applied
                     else Blocked)
  {
    ListedMembers(a.nodes, AttemptedBy(a), ReadyAfter(a), Prepared(a.prepared), r);
  }

  /** Which cores an attempt must finalize: those it ran without keeping the old resources, and those a failed check concerns. */
  lemma AttemptedExactly(a: Attempt, core: string)
    requires a.Complete()
    ensures core in AttemptedBy(a) <==>
      if a.fence.Some? then core in a.fence.value
      else (core in a.drivers && (a.turns[core].Done? || !a.turns[core].intact))
           || (!a.checks.bindings && core in a.affected)
           || (a.checks.bindings && !(a.checks.ingress && a.checks.portMapping)
               && core in a.drivers && !a.turns[core].Done? && a.turns[core].intact)
  {
  }

  method Conclusion(a: Attempt) returns (attempted: set<string>, list: seq<Receipt>)
    requires a.Complete()
    ensures attempted == AttemptedBy(a) && list == ListOf(a)
  {
    var ready: set<string> := {};
    if a.fence.Some? {
      attempted := a.fence.value;
    } else {
      var l := RunCores(a.drivers, a.turns);
      assert l == LedgerOf(a);
      var (passed, tried) := Conclude(l, a.checks, a.affected);
      ready, attempted := passed, tried;
    }
    var left, stopped := FinishCores(a.drivers, a.finalizers, ready, attempted);
    list := ListReceipts(a.nodes, attempted, left, Prepared(a.prepared));
  }

  // ---------------------------------------------------------------- publication

  /** The receipt fields of the agent's state; the controller takes no receipt with revision 0. */
  datatype Record = Record(revision: nat, hash: string, sequence: nat, list: seq<Receipt>)

  /** One attempt to apply a revision. */
  datatype Trial = Trial(revision: nat, hash: string, attempt: Attempt)

  function Withdrawn(r: Record): Record { Record(0, "", r.sequence, []) }

  /** Memory, state file, every attempt made and every record the controller was ever given. */
  datatype World = World(mem: Record, disk: Record, trials: set<Trial>, reported: set<Record>)

  function Restarted(w: World): World { w.(mem := w.disk) }

  function SaveAll(w: World, save: Save): World {
    var v := w.(disk := File(w.mem, w.disk, save));
    if save.Died() then Restarted(v) else v
  }

  /** Saves a new record; after an error memory falls back. */
  function Replace(w: World, next: Record, fallback: Record, save: Save): World {
    var v := w.(disk := File(next, w.disk, save));
    if save.Died() then Restarted(v) else v.(mem := if save.Saved? then next else fallback)
  }

  /** What each way a save can end leaves in memory and in the file. */
  lemma SaveOutcomes(w: World, next: Record, fallback: Record, save: Save)
    ensures var v := Replace(w, next, fallback, save);
            && v.mem == (match save case Saved => next case DiedAfter => next case DiedBefore => w.disk case _ => fallback)
            && v.disk == (match save case NotWritten => w.disk case DiedBefore => w.disk case _ => next)
    ensures SaveAll(w, save) == Replace(w, w.mem, w.mem, save)
  {
  }

  ghost function RecordOf(t: Trial, sequence: nat): Record
    requires t.attempt.Complete()
  {
    Record(t.revision, t.hash, sequence, ListOf(t.attempt))
  }

  /** finishNodeApplications: the sequence is taken back when the save fails. */
  ghost function Publish(w: World, t: Trial, save: Save): World
    requires t.attempt.Complete()
  {
    if AttemptedBy(t.attempt) == {} then w
    else Replace(w.(trials := w.trials + {t}), RecordOf(t, w.mem.sequence + 1), Withdrawn(w.mem), save)
  }

  function AllFailed(list: seq<Receipt>): seq<Receipt> {
    if list == [] then [] else AllFailed(list[..|list| - 1]) + [list[|list| - 1].(status := Failed)]
  }

  function Invalidated(r: Record): Record { r.(sequence := r.sequence + 1, list := AllFailed(r.list)) }

  /** invalidateNATApplications: the sequence stays spent when the save fails. */
  ghost function Invalidate(w: World, save: Save): World {
    if forall r :: r in w.mem.list ==> r.status.Failed? then w
    else Replace(w, Invalidated(w.mem), Withdrawn(Invalidated(w.mem)), save)
  }

  /** A heartbeat or an apply report. */
  function Report(w: World): World {
    if w.mem.revision == 0 then w else w.(reported := w.reported + {w.mem})
  }

  datatype Event =
    | DoPublish(trial: Trial, publishSave: Save)
    | DoInvalidate(invalidateSave: Save)
    | DoReport
    | DoSave(save: Save)
    | DoRestart
  {
    ghost predicate Complete() { DoPublish? ==> trial.attempt.Complete() }
  }

  ghost function Step(w: World, e: Event): World
    requires e.Complete()
  {
    match e
    case DoPublish(t, save) => Publish(w, t, save)
    case DoInvalidate(save) => Invalidate(w, save)
    case DoReport => Report(w)
    case DoSave(save) => SaveAll(w, save)
    case DoRestart => Restarted(w)
  }

  function Enrolled(): World { World(Record(0, "", 0, []), Record(0, "", 0, []), {}, {}) }

  ghost predicate AllComplete(events: seq<Event>) { forall i :: 0 <= i < |events| ==> events[i].Complete() }

  ghost function Run(events: seq<Event>): World
    requires AllComplete(events)
  {
    if events == [] then Enrolled() else Step(Run(events[..|events| - 1]), events[|events| - 1])
  }

  // ---------------------------------------------------------------- safety

  /** Nothing reported has a later number than this record, and under its own number only this record was reported. */
  ghost predicate Ahead(r: Record, reported: set<Record>) {
    forall q :: q in reported ==> q.sequence <= r.sequence && (q.sequence == r.sequence && r.revision > 0 ==> q == r)
  }

  /** An attempt at this very revision earned the receipt. */
  ghost predicate EarnedIn(trials: set<Trial>, q: Record, r: Receipt) {
    exists t :: t in trials && t.revision == q.revision && t.hash == q.hash && t.attempt.Complete() && Earned(t.attempt, r)
  }

  ghost predicate Honest(q: Record, trials: set<Trial>) {
    forall r :: r in q.list && r.status.Applied? ==> EarnedIn(trials, q, r)
  }

  ghost predicate Numbered(w: World) {
    && Ahead(w.mem, w.reported) && Ahead(w.disk, w.reported)
    // what may be reported is durable
    && (w.mem.revision > 0 ==> w.disk == w.mem)
    && (forall q, r :: q in w.reported && r in w.reported && q.sequence == r.sequence ==> q == r)
    && (forall q :: q in w.reported ==> q.revision > 0)
  }

  ghost predicate Truthful(w: World) {
    && Honest(w.mem, w.trials) && Honest(w.disk, w.trials)
    && (forall q :: q in w.reported ==> Honest(q, w.trials))
  }

  ghost predicate Inv(w: World) { Numbered(w) && Truthful(w) }

  lemma HonestGrows(q: Record, a: set<Trial>, b: set<Trial>)
    requires Honest(q, a) && a <= b
    ensures Honest(q, b)
  {
    forall r | r in q.list && r.status.Applied?
      ensures EarnedIn(b, q, r)
    {
      assert EarnedIn(a, q, r);
    }
  }

  lemma ReplaceKeeps(w: World, next: Record, fallback: Record, save: Save)
    requires Inv(w) && next.sequence > w.mem.sequence && Honest(next, w.trials)
    requires fallback.sequence >= w.mem.sequence && fallback.revision == 0 && fallback.list == []
    ensures Inv(Replace(w, next, fallback, save))
  {
    assert Ahead(next, w.reported) && Ahead(fallback, w.reported);
    assert Honest(fallback, w.trials);
  }

  lemma TriedKeeps(w: World, t: Trial)
    requires Inv(w)
    ensures Inv(w.(trials := w.trials + {t}))
  {
    forall q | q in w.reported + {w.mem, w.disk}
      ensures Honest(q, w.trials + {t})
    {
      HonestGrows(q, w.trials, w.trials + {t});
    }
  }

  lemma RecordHonest(t: Trial, sequence: nat, trials: set<Trial>)
    requires t.attempt.Complete() && t in trials
    ensures Honest(RecordOf(t, sequence), trials)
  {
    var q := RecordOf(t, sequence);
    forall r | r in q.list && r.status.Applied?
      ensures EarnedIn(trials, q, r)
    {
      AppliedIffEarned(t.attempt, r);
    }
  }

  lemma PublishKeeps(w: World, t: Trial, save: Save)
    requires Inv(w) && t.attempt.Complete()
    ensures Inv(Publish(w, t, save))
  {
    TriedKeeps(w, t);
    var next := RecordOf(t, w.mem.sequence + 1);
    RecordHonest(t, w.mem.sequence + 1, w.trials + {t});
    assert next.sequence == w.mem.sequence + 1;
    ReplaceKeeps(w.(trials := w.trials + {t}), next, Withdrawn(w.mem), save);
  }

  lemma {:induction false} AllFailedHonest(list: seq<Receipt>)
    ensures |AllFailed(list)| == |list|
    ensures forall i :: 0 <= i < |list| ==> AllFailed(list)[i] == list[i].(status := Failed)
  {
    if list != [] {
      AllFailedHonest(list[..|list| - 1]);
    }
  }

  lemma InvalidateKeeps(w: World, save: Save)
    requires Inv(w)
    ensures Inv(Invalidate(w, save))
  {
    AllFailedHonest(w.mem.list);
    ReplaceKeeps(w, Invalidated(w.mem), Withdrawn(Invalidated(w.mem)), save);
  }

  /** After an invalidation memory holds no success, and what is then published has a new number. */
  lemma InvalidatedHoldsNoSuccess(w: World, save: Save)
    requires !save.Died()
    ensures var v := Invalidate(w, save);
            && (forall r :: r in v.mem.list ==> r.status == Failed)
            && ((exists r :: r in w.mem.list && r.status != Failed) ==>
                 v.mem.sequence == w.mem.sequence + 1
                 && (if save.Saved? then |v.mem.list| == |w.mem.list| && v.mem.revision == w.mem.revision && v.mem.hash == w.mem.hash
                     else v.mem.list == [] && v.mem.revision == 0))
            && ((forall r :: r in w.mem.list ==> r.status == Failed) ==> v == w)
  {
    AllFailedHonest(w.mem.list);
  }

  /**
   An attempt that attempted nothing leaves the report as it is; a publication that
   cannot be saved leaves nothing to report, under the old number.
   */
  lemma PublishedOrWithdrawn(w: World, t: Trial, save: Save)
    requires t.attempt.Complete() && !save.Died()
    ensures var v := Publish(w, t, save);
            if AttemptedBy(t.attempt) == {} then v == w
            else if save.Saved? then v.mem == Record(t.revision, t.hash, w.mem.sequence + 1, ListOf(t.attempt)) && v.disk == v.mem
            else v.mem.revision == 0 && v.mem.list == [] && v.mem.sequence == w.mem.sequence
  {
  }

  lemma ReportKeeps(w: World)
    requires Inv(w)
    ensures Inv(Report(w))
  {
  }

  lemma SaveAllKeeps(w: World, save: Save)
    requires Inv(w)
    ensures Inv(SaveAll(w, save))
  {
  }

  lemma StepKeeps(w: World, e: Event)
    requires Inv(w) && e.Complete()
    ensures Inv(Step(w, e))
  {
    match e
    case DoPublish(t, save) => PublishKeeps(w, t, save);
    case DoInvalidate(save) => InvalidateKeeps(w, save);
    case DoReport => ReportKeeps(w);
    case DoSave(save) => SaveAllKeeps(w, save);
    case DoRestart => SaveAllKeeps(w, DiedBefore);
  }

  lemma {:induction false} RunKeeps(events: seq<Event>)
    requires AllComplete(events)
    ensures Inv(Run(events))
  {
    if events != [] {
      RunKeeps(events[..|events| - 1]);
      StepKeeps(Run(events[..|events| - 1]), events[|events| - 1]);
    }
  }

  lemma StepReports(w: World, e: Event)
    requires e.Complete()
    ensures w.reported <= Step(w, e).reported
    ensures e.DoReport? && w.mem.revision > 0 ==> w.mem in Step(w, e).reported
  {
  }

  lemma {:induction false} ReportStays(events: seq<Event>, i: nat)
    requires AllComplete(events) && i < |events| && events[i].DoReport? && Run(events[..i]).mem.revision > 0
    ensures Run(events[..i]).mem in Run(events).reported
  {
    var n := |events| - 1;
    StepReports(Run(events[..n]), events[n]);
    if i < n {
      assert events[..n][..i] == events[..i];
      ReportStays(events[..n], i);
    }
  }

  /**
   Over every run: two reports under one sequence number are the same report, numbers
   never go back, and what is reported is already what a restart would find.
   */
  lemma OneListPerSequence(events: seq<Event>, i: nat, j: nat)
    requires AllComplete(events) && i <= j < |events| && events[i].DoReport? && events[j].DoReport?
    requires Run(events[..i]).mem.revision > 0 && Run(events[..j]).mem.revision > 0
    ensures var a, b := Run(events[..i]), Run(events[..j]);
            && a.mem.sequence <= b.mem.sequence
            && (a.mem.sequence == b.mem.sequence ==> a.mem == b.mem)
            && a.disk == a.mem && b.disk == b.mem
  {
    RunKeeps(events[..i]);
    RunKeeps(events[..j]);
    if i < j {
      assert events[..j][..i] == events[..i];
      ReportStays(events[..j], i);
    }
  }

  /** Over every run: a node reported as applied earned it in an attempt at the reported revision. */
  lemma ReportedAppliedWasEarned(events: seq<Event>, q: Record, r: Receipt)
    requires AllComplete(events) && q in Run(events).reported && r in q.list && r.status.Applied?
    ensures EarnedIn(Run(events).trials, q, r)
  {
    RunKeeps(events);
  }

  // ---------------------------------------------------------------- the agent

  class Agent {
    var record: Record
    var file: Record
    ghost var trials: set<Trial>
    ghost var reported: set<Record>

    ghost function Now(): World
      reads this
    {
      World(record, file, trials, reported)
    }

    constructor ()
      ensures Now() == Enrolled()
    {
      record, file, trials, reported := Record(0, "", 0, []), Record(0, "", 0, []), {}, {};
    }

    method Persist(save: Save) returns (ok: bool)
      modifies this
      ensures Now() == SaveAll(old(Now()), save) && (ok <==> save.Saved?)
    {
      file := File(record, file, save);
      if save.Died() {
        record := file;
      }
      ok := save.Saved?;
    }

    method FinishNodeApplications(t: Trial, save: Save)
      requires t.attempt.Complete()
      modifies this
      ensures Now() == Publish(old(Now()), t, save)
    {
      var attempted, list := Conclusion(t.attempt);
      if attempted == {} {
        return;
      }
      trials := trials + {t};
      var previous := record.sequence;
      record := Record(t.revision, t.hash, record.sequence + 1, list);
      var ok := Persist(save);
      if !ok && !save.Died() {
        record := Record(0, "", previous, []);
      }
    }

    method InvalidateNATApplications(save: Save)
      modifies this
      ensures Now() == Invalidate(old(Now()), save)
    {
      var changed := AnySuccess(record.list);
      if !changed {
        return;
      }
      record := record.(sequence := record.sequence + 1);
      var failed := FailAll(record.list);
      record := record.(list := failed);
      var ok := Persist(save);
      if !ok && !save.Died() {
        record := Record(0, "", record.sequence, []);
      }
    }
  }

  method AnySuccess(list: seq<Receipt>) returns (changed: bool)
    ensures changed <==> exists r :: r in list && !r.status.Failed?
  {
    changed := false;
    for i := 0 to |list|
      invariant changed <==> exists r :: r in list[..i] && !r.status.Failed?
    {
      assert list[..i + 1] == list[..i] + [list[i]];
      changed := changed || list[i].status != Failed;
    }
    assert list[..|list|] == list;
  }

  method FailAll(list: seq<Receipt>) returns (out: seq<Receipt>)
    ensures out == AllFailed(list)
  {
    out := [];
    for i := 0 to |list|
      invariant out == AllFailed(list[..i])
    {
      assert list[..i + 1][..i] == list[..i];
      out := out + [list[i].(status := Failed)];
    }
    assert list[..|list|] == list;
  }
}
