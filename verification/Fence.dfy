/**
 The network fence transaction (bindingRuntime.prepare and bindingApply.finish in
 internal/agent/network_binding.go, stageForwards and prepareForwards in
 internal/agent/forward_binding.go). Changed and removed bindings lose their lease
 before anything else happens; candidates are resolved; only cores that were applied
 get their candidates activated.
 */
module Fence {
  import opened Durable
  import Cyclic
  import R = Routing
  import T = Rotation

  /** What resolution pins: the path itself, the sample it was taken from, and a lookup lifetime. */
  datatype Resolved = Resolved(path: string, sequence: nat, lifetime: nat)

  const NO_PATH := Resolved("", 0, 0)

  /** A lease in the installed plan; a pending one carries no traffic. */
  datatype Binding = Binding(pending: bool, core: string, fingerprint: string, policy: string, applied: Resolved)

  type Plan = map<R.Resource, Binding>

  /**
   A desired resource with a network binding: its fingerprint covers configuration,
   credentials and local permissions. `strict` marks forwards and nodes with a
   transport, whose old path is fenced as soon as it changes or cannot be resolved.
   */
  datatype Spec = Spec(
    resource: R.Resource, core: string, blocked: bool, retired: bool, strict: bool, fingerprint: string, policy: string)
  {
    predicate Skipped() { blocked || (resource.kind.Forward? && retired) }
  }

  /** How resolution of one resource ended; `Unsupported` is an unverified core version. */
  datatype Answer = Path(resolved: Resolved) | Failed | Unsupported

  type Answers = map<R.Resource, Answer>

  function Fenced(b: Binding): Binding { b.(pending := true, applied := NO_PATH) }

  function New(s: Spec): Binding { Binding(true, s.core, s.fingerprint, s.policy, NO_PATH) }

  /** An old lease survives only for an unblocked resource with the same fingerprint. */
  function StageOf(s: Spec, plan: Plan): Binding {
    if s.resource in plan && !plan[s.resource].pending && !s.blocked && plan[s.resource].fingerprint == s.fingerprint
    then plan[s.resource]
    else New(s)
  }

  /** Desired resources by identity. */
  function Catalog(specs: seq<Spec>): map<R.Resource, Spec> {
    if specs == [] then map[] else Catalog(specs[..|specs| - 1])[specs[|specs| - 1].resource := specs[|specs| - 1]]
  }

  ghost predicate Distinct(specs: seq<Spec>) {
    forall i, j :: 0 <= i < j < |specs| ==> specs[i].resource != specs[j].resource
  }

  ghost predicate Keyed(cat: map<R.Resource, Spec>) { forall r :: r in cat ==> cat[r].resource == r }

  /** The plan that fences everything changed or removed. */
  function Staged(plan: Plan, cat: map<R.Resource, Spec>): Plan {
    map r | r in plan.Keys + cat.Keys :: if r in cat then StageOf(cat[r], plan) else Fenced(plan[r])
  }

  function SamePath(a: Resolved, b: Resolved): bool { a.path == b.path }

  /** The staged binding after resolution. */
  function Restaged(s: Spec, b: Binding, a: Answer): Binding {
    if s.Skipped() then b
    else
      match a
      case Failed => if s.strict then Fenced(b) else b
      case Unsupported => if s.strict && s.resource.kind.Node? then Fenced(b) else b
      case Path(p) => if !b.pending && !SamePath(p, b.applied) && s.strict then Fenced(b) else b
  }

  /** The lease to activate once the core runs, if resolution worked. */
  function Candidate(s: Spec, b: Binding, a: Answer): Option<Binding> {
    if s.Skipped() || !a.Path? then None
    else
      var p := if !b.pending && SamePath(a.resolved, b.applied) then a.resolved.(sequence := b.applied.sequence) else a.resolved;
      Some(b.(pending := false, applied := p))
  }

  function AnswerFor(answers: Answers, r: R.Resource): Answer { if r in answers then answers[r] else Failed }

  function RestagedPlan(staged: Plan, cat: map<R.Resource, Spec>, answers: Answers): Plan {
    map r | r in staged :: if r in cat then Restaged(cat[r], staged[r], AnswerFor(answers, r)) else staged[r]
  }

  function CandidatePlan(staged: Plan, cat: map<R.Resource, Spec>, answers: Answers): Plan {
    map r | r in staged && r in cat && Candidate(cat[r], staged[r], AnswerFor(answers, r)).Some? ::
      Candidate(cat[r], staged[r], AnswerFor(answers, r)).value
  }

  /** A prepared transaction. */
  datatype Tx = Tx(staged: Plan, candidates: Plan, wanted: map<R.Resource, Spec>)

  /** The plan after the cores in `applied` took over; other cores keep what was staged. */
  function Final(tx: Tx, applied: set<string>): Plan {
    map r | r in tx.staged && (tx.staged[r].core in applied ==> r in tx.wanted) ::
      if tx.staged[r].core !in applied then tx.staged[r]
      else if r in tx.candidates then tx.candidates[r]
      else Fenced(tx.staged[r])
  }

  // ---------------------------------------------------------------- what one transaction does

  /** The fence: what is still active was active before, unchanged, and its resource is wanted, unblocked and unchanged. */
  ghost predicate Unchanged(before: Plan, plan: Plan, wanted: map<R.Resource, Spec>) {
    forall r :: r in plan && !plan[r].pending ==>
      && r in before && plan[r] == before[r]
      && r in wanted && !wanted[r].blocked && wanted[r].fingerprint == plan[r].fingerprint
  }

  lemma StagedFences(plan: Plan, cat: map<R.Resource, Spec>)
    requires Keyed(cat)
    ensures Unchanged(plan, Staged(plan, cat), cat) && plan.Keys <= Staged(plan, cat).Keys
    ensures forall r :: r in cat ==> r in Staged(plan, cat) && Staged(plan, cat)[r].fingerprint == cat[r].fingerprint
  {
  }

  lemma RestagedFences(before: Plan, staged: Plan, cat: map<R.Resource, Spec>, answers: Answers)
    requires Unchanged(before, staged, cat)
    ensures Unchanged(before, RestagedPlan(staged, cat, answers), cat)
  {
    forall r | r in staged
      ensures RestagedPlan(staged, cat, answers)[r] in {staged[r], Fenced(staged[r])}
    {
    }
  }

  /** Candidates belong to wanted, unblocked resources and were resolved in this transaction. */
  ghost predicate Resolvable(tx: Tx, answers: Answers) {
    forall r :: r in tx.candidates ==>
      && r in tx.staged && r in tx.wanted && !tx.wanted[r].Skipped() && !tx.candidates[r].pending
      && tx.candidates[r].fingerprint == tx.staged[r].fingerprint == tx.wanted[r].fingerprint
      && tx.candidates[r].core == tx.staged[r].core
      && AnswerFor(answers, r).Path? && SamePath(tx.candidates[r].applied, AnswerFor(answers, r).resolved)
  }

  lemma CandidatesResolve(staged: Plan, cat: map<R.Resource, Spec>, answers: Answers)
    requires Keyed(cat) && forall r :: r in cat ==> r in staged && staged[r].fingerprint == cat[r].fingerprint
    ensures Resolvable(Tx(RestagedPlan(staged, cat, answers), CandidatePlan(staged, cat, answers), cat), answers)
  {
  }

  /**
   What finish leaves active is either still the fenced plan's own, for a core that
   was not applied, or a candidate of an applied core; and a resource leaves the plan
   only when it is unwanted and its core was applied.
   */
  lemma FinalActivates(tx: Tx, applied: set<string>, r: R.Resource)
    requires r in tx.staged
    ensures var final := Final(tx, applied);
            && (r in final && !final[r].pending ==>
                 || (tx.staged[r].core !in applied && final[r] == tx.staged[r])
                 || (tx.staged[r].core in applied && r in tx.candidates && final[r] == tx.candidates[r]))
            && (r !in final <==> r !in tx.wanted && tx.staged[r].core in applied)
            && final.Keys <= tx.staged.Keys
  {
  }

  /**
   An active lease of a wanted, unblocked and unchanged resource survives a prepare,
   whatever fails, unless its path is strict and could not be confirmed.
   */
  lemma UnchangedLeaseSurvives(w: World, cat: map<R.Resource, Spec>, answers: Answers, l: Luck, r: R.Resource)
    requires Keyed(cat) && r in w.plan && !w.plan[r].pending
    requires r in cat && !cat[r].blocked && w.plan[r].fingerprint == cat[r].fingerprint
    requires !cat[r].strict || (r in answers && answers[r].Path? && answers[r].resolved.path == w.plan[r].applied.path)
             || (r.kind.Forward? && (cat[r].retired || (r in answers && answers[r].Unsupported?)))
    ensures var v := Prepare(w, cat, answers, l); r in v.plan && v.plan[r] == w.plan[r]
  {
  }

  /** A strict path that changed, or could not be resolved, loses its lease with the second fence. */
  lemma ChangedStrictPathIsFenced(w: World, cat: map<R.Resource, Spec>, answers: Answers, r: R.Resource)
    requires Keyed(cat) && r in cat && cat[r].strict && !cat[r].blocked && !(r.kind.Forward? && cat[r].retired)
    requires r !in answers || answers[r].Failed? || (answers[r].Unsupported? && r.kind.Node?)
             || (answers[r].Path? && (r in w.plan ==> answers[r].resolved.path != w.plan[r].applied.path))
    ensures var v := Prepare(w, cat, answers, Luck(true, true, true)); r in v.plan && v.plan[r].pending
  {
  }

  /** Everything else is staged closed, with the configuration that is wanted now. */
  lemma OtherwiseStagedClosed(w: World, cat: map<R.Resource, Spec>, answers: Answers, r: R.Resource)
    requires Keyed(cat) && r in cat
    requires r !in w.plan || w.plan[r].pending || cat[r].blocked || w.plan[r].fingerprint != cat[r].fingerprint
    ensures var v := Prepare(w, cat, answers, Luck(true, true, true));
            r in v.plan && v.plan[r] == Binding(true, cat[r].core, cat[r].fingerprint, cat[r].policy, NO_PATH)
  {
    var s := cat[r];
    var b := Binding(true, s.core, s.fingerprint, s.policy, NO_PATH);
    assert StageOf(s, w.plan) == b;
    assert Restaged(s, b, if r in answers then answers[r] else Failed) == b;
  }

  /** A resource that can be resolved gets a candidate; an unchanged path keeps the sample it was taken from. */
  lemma ResolvedGetsCandidate(w: World, cat: map<R.Resource, Spec>, answers: Answers, r: R.Resource)
    requires Keyed(cat) && r in cat && !cat[r].blocked && !(r.kind.Forward? && cat[r].retired) && r in answers && answers[r].Path?
    ensures var v := Prepare(w, cat, answers, Luck(true, true, true));
            var kept := r in w.plan && !w.plan[r].pending && w.plan[r].fingerprint == cat[r].fingerprint;
            var p := answers[r].resolved;
            && v.tx.Some? && r in v.tx.value.candidates
            && var c := v.tx.value.candidates[r];
               && !c.pending && c.fingerprint == cat[r].fingerprint
               && (if kept then c.core == w.plan[r].core && c.policy == w.plan[r].policy else c.core == cat[r].core && c.policy == cat[r].policy)
               && c.applied == (if kept && p.path == w.plan[r].applied.path then p.(sequence := w.plan[r].applied.sequence) else p)
  {
  }

  /**
   Finish with a replaced plan: what belongs to cores that were not applied stays as it
   was staged, candidates of applied cores come into force, and other wanted resources
   of applied cores stay in the plan, closed.
   */
  lemma FinishInForce(w: World, applied: set<string>, r: R.Resource)
    requires Inv(w) && w.tx.Some? && r in w.plan
    ensures var v := Finish(w, applied, true);
            && (w.plan[r].core !in applied ==> r in v.plan && v.plan[r] == w.plan[r])
            && (w.plan[r].core in applied && r in w.tx.value.candidates ==> r in v.plan && v.plan[r] == w.tx.value.candidates[r])
            && (w.plan[r].core in applied && r in w.wanted && r !in w.tx.value.candidates ==>
                 r in v.plan && v.plan[r] == w.plan[r].(pending := true, applied := NO_PATH))
  {
  }

  // ---------------------------------------------------------------- runs

  /** The installed plan, the desired resources it was fenced for, and the open transaction. */
  datatype World = World(plan: Plan, wanted: map<R.Resource, Spec>, tx: Option<Tx>)

  /** Which of prepare's fallible calls succeed. */
  datatype Luck = Luck(load: bool, fence: bool, refence: bool)

  function Prepare(w: World, cat: map<R.Resource, Spec>, answers: Answers, l: Luck): World {
    var staged := Staged(w.plan, cat);
    if !l.load then w.(tx := None)
    else if staged == map[] then World(w.plan, cat, Some(Tx(map[], map[], cat)))
    else if !l.fence then w.(tx := None)
    else if !l.refence then World(staged, cat, None)
    else
      var again := RestagedPlan(staged, cat, answers);
      World(again, cat, Some(Tx(again, CandidatePlan(staged, cat, answers), cat)))
  }

  /**
   Exactly when a prepare opens a transaction: the present plan was read, and either there
   is nothing to fence or both fences were installed. Otherwise nothing new is in force,
   and before the first fence nothing changes at all.
   */
  lemma OpensIff(w: World, cat: map<R.Resource, Spec>, answers: Answers, l: Luck, r: R.Resource)
    requires Keyed(cat)
    ensures var v := Prepare(w, cat, answers, l);
            && (v.tx.Some? <==> l.load && ((w.plan == map[] && cat == map[]) || (l.fence && l.refence)))
            && (v.tx.None? && (!l.load || !l.fence) ==> v.plan == w.plan && v.wanted == w.wanted)
            && (v.tx.None? && l.load && l.fence && r in v.plan && !v.plan[r].pending ==>
                 r in w.plan && v.plan[r] == w.plan[r] && r in cat && !cat[r].blocked && cat[r].fingerprint == w.plan[r].fingerprint)
  {
    if w.plan == map[] && cat == map[] {
      assert Staged(w.plan, cat) == map[];
    } else {
      var x :| x in w.plan || x in cat;
      assert x in Staged(w.plan, cat);
    }
  }

  function Finish(w: World, applied: set<string>, replaced: bool): World {
    if w.tx.None? then w
    else if w.tx.value.staged == map[] || !replaced then w.(tx := None)
    else w.(plan := Final(w.tx.value, applied), tx := None)
  }

  datatype Event =
    | DoPrepare(wanted: map<R.Resource, Spec>, answers: Answers, luck: Luck)
    | DoFinish(applied: set<string>, replaced: bool)
    | DoRestart

  function Step(w: World, e: Event): World {
    match e
    case DoPrepare(cat, answers, luck) => Prepare(w, cat, answers, luck)
    case DoFinish(applied, replaced) => Finish(w, applied, replaced)
    case DoRestart => w.(tx := None) // the installed plan is loaded again
  }

  function Run(events: seq<Event>): World {
    if events == [] then World(map[], map[], None) else Step(Run(events[..|events| - 1]), events[|events| - 1])
  }

  ghost predicate Admitted(events: seq<Event>) {
    forall i :: 0 <= i < |events| && events[i].DoPrepare? ==> Keyed(events[i].wanted)
  }

  /** Every lease in force matches an unblocked resource of the desired state it was fenced for. */
  ghost predicate Legitimate(plan: Plan, wanted: map<R.Resource, Spec>) {
    forall r :: r in plan && !plan[r].pending ==>
      r in wanted && !wanted[r].blocked && wanted[r].fingerprint == plan[r].fingerprint
  }

  ghost predicate Open(w: World, tx: Tx) {
    && w.plan == tx.staged && tx.wanted == w.wanted
    && (forall r :: r in tx.candidates ==>
         && r in tx.wanted && !tx.wanted[r].blocked && tx.wanted[r].fingerprint == tx.candidates[r].fingerprint
         && r in tx.staged && tx.candidates[r].core == tx.staged[r].core)
  }

  ghost predicate Inv(w: World) {
    Legitimate(w.plan, w.wanted) && (w.tx.Some? ==> Open(w, w.tx.value))
  }

  lemma PrepareKeeps(w: World, cat: map<R.Resource, Spec>, answers: Answers, l: Luck)
    requires Inv(w) && Keyed(cat)
    ensures Inv(Prepare(w, cat, answers, l))
    ensures var v := Prepare(w, cat, answers, l);
            v == w.(tx := None) || (Unchanged(w.plan, v.plan, cat) && v.wanted == cat && w.plan.Keys <= v.plan.Keys)
  {
    var staged := Staged(w.plan, cat);
    StagedFences(w.plan, cat);
    RestagedFences(w.plan, staged, cat, answers);
    CandidatesResolve(staged, cat, answers);
  }

  lemma FinishKeeps(w: World, applied: set<string>, replaced: bool)
    requires Inv(w)
    ensures Inv(Finish(w, applied, replaced))
  {
  }

  lemma {:induction false} RunKeeps(events: seq<Event>)
    requires Admitted(events)
    ensures Inv(Run(events))
  {
    if events != [] {
      var n := |events| - 1;
      RunKeeps(events[..n]);
      var w := Run(events[..n]);
      match events[n]
      case DoPrepare(cat, answers, luck) => PrepareKeeps(w, cat, answers, luck);
      case DoFinish(applied, replaced) => FinishKeeps(w, applied, replaced);
      case DoRestart =>
    }
  }

  /** This step gives the resource this lease: a finish whose applied core owns the candidate. */
  ghost predicate Grants(w: World, e: Event, r: R.Resource, b: Binding) {
    && e.DoFinish? && e.replaced && b.core in e.applied
    && w.tx.Some? && r in w.tx.value.candidates && w.tx.value.candidates[r] == b
  }

  lemma StepGrants(w: World, e: Event, r: R.Resource)
    requires Inv(w) && (e.DoPrepare? ==> Keyed(e.wanted))
    requires r in Step(w, e).plan && !Step(w, e).plan[r].pending
    ensures (r in w.plan && w.plan[r] == Step(w, e).plan[r]) || Grants(w, e, r, Step(w, e).plan[r])
  {
    if e.DoPrepare? {
      PrepareKeeps(w, e.wanted, e.answers, e.luck);
    }
  }

  lemma RunStep(events: seq<Event>, k: nat)
    requires Admitted(events) && k < |events|
    ensures Inv(Run(events[..k])) && Run(events[..k + 1]) == Step(Run(events[..k]), events[k])
  {
    assert events[..k + 1][..k] == events[..k];
    RunKeeps(events[..k]);
  }

  /** An open transaction was prepared by the last event, and its candidates carry the paths resolved there. */
  lemma OpenFromPrepare(events: seq<Event>)
    requires Admitted(events) && Run(events).tx.Some?
    ensures events != [] && events[|events| - 1].DoPrepare?
    ensures Resolvable(Run(events).tx.value, events[|events| - 1].answers)
  {
    var n := |events| - 1;
    RunKeeps(events[..n]);
    var w := Run(events[..n]);
    var e := events[n];
    if e.DoPrepare? {
      var staged := Staged(w.plan, e.wanted);
      StagedFences(w.plan, e.wanted);
      CandidatesResolve(staged, e.wanted, e.answers);
    }
  }

  /** The lease carries the path that this resolution answered. */
  ghost predicate ResolvedBy(e: Event, r: R.Resource, b: Binding) {
    e.DoPrepare? && AnswerFor(e.answers, r).Path? && SamePath(b.applied, AnswerFor(e.answers, r).resolved)
  }

  /** After the first `k` events the plan holds this lease. */
  ghost predicate Holds(events: seq<Event>, k: nat, r: R.Resource, b: Binding)
    requires k <= |events|
  {
    var p := Run(events[..k]).plan; r in p && p[r] == b
  }

  /** Event `k` grants the lease, with the path resolved by the prepare right before. */
  ghost predicate Granted(events: seq<Event>, k: nat, r: R.Resource, b: Binding)
    requires k < |events|
  {
    Grants(Run(events[..k]), events[k], r, b) && k > 0 && ResolvedBy(events[k - 1], r, b)
  }

  lemma GrantedHere(events: seq<Event>, k: nat, r: R.Resource, b: Binding)
    requires Admitted(events) && k < |events| && !b.pending
    requires Holds(events, k + 1, r, b) && !Holds(events, k, r, b)
    ensures Granted(events, k, r, b)
  {
    RunStep(events, k);
    StepGrants(Run(events[..k]), events[k], r);
    OpenFromPrepare(events[..k]);
  }

  /**
   Over every run: a lease in force now that was not in force earlier was granted in
   between, by step `k`, to a candidate of a core that was applied, with the path
   resolved by the prepare right before. A lease taken away never comes back by itself,
   whatever fails or restarts.
   */
  lemma {:induction false} LeasesComeFromFinish(events: seq<Event>, i: nat, j: nat, r: R.Resource, b: Binding) returns (k: nat)
    requires Admitted(events) && i <= j <= |events| && !b.pending
    requires Holds(events, j, r, b) && !Holds(events, i, r, b)
    ensures i <= k < j && Granted(events, k, r, b)
  {
    k := j - 1;
    if Holds(events, k, r, b) {
      k := LeasesComeFromFinish(events, i, k, r, b);
    } else {
      GrantedHere(events, k, r, b);
    }
  }

  /** Over every run: a resource leaves the plan only unwanted and with its core applied. */
  lemma RemovedOnlyWithItsCore(events: seq<Event>, k: nat, r: R.Resource)
    requires Admitted(events) && k < |events|
    requires r in Run(events[..k]).plan && r !in Run(events[..k + 1]).plan
    ensures var w := Run(events[..k]);
            events[k].DoFinish? && w.tx.Some? && r !in w.tx.value.wanted && w.plan[r].core in events[k].applied
  {
    RunStep(events, k);
    var w := Run(events[..k]);
    if events[k].DoPrepare? {
      PrepareKeeps(w, events[k].wanted, events[k].answers, events[k].luck);
    }
  }

  /** Over every run each lease in force matches an unblocked desired resource by fingerprint. */
  lemma LeasesMatchDesired(events: seq<Event>)
    requires Admitted(events)
    ensures Legitimate(Run(events).plan, Run(events).wanted)
  {
    RunKeeps(events);
  }

  // ---------------------------------------------------------------- an error after the plan was replaced

  predicate HasForward(keys: set<R.Resource>) { exists r :: r in keys && r.kind.Forward? }

  /** When finish notes the forwards behind the replaced plan: the shared core was applied and a forward is wanted or planned. */
  predicate NotesForwards(tx: Tx, applied: set<string>) {
    "singbox" in applied && (HasForward(tx.wanted.Keys) || HasForward(Final(tx, applied).Keys))
  }

  /** What finish answers when its calls end like this; `noted` matters only if the forwards are noted at all. */
  predicate Succeeds(w: World, applied: set<string>, replaced: bool, noted: bool) {
    w.tx.Some? && (w.tx.value.staged == map[] || (replaced && (NotesForwards(w.tx.value, applied) ==> noted)))
  }

  /** The forwards are noted when the shared core is applied and a forward is wanted, or stays with a core that is not. */
  lemma NotesForwardsIff(tx: Tx, applied: set<string>)
    ensures NotesForwards(tx, applied) <==>
      "singbox" in applied &&
      exists r: R.Resource :: r.kind.Forward? && (r in tx.wanted || (r in tx.staged && tx.staged[r].core !in applied))
  {
    forall r: R.Resource | r in tx.staged && tx.staged[r].core !in applied
      ensures r in Final(tx, applied)
    {
    }
    forall r: R.Resource | r in Final(tx, applied)
      ensures r in tx.wanted || (r in tx.staged && tx.staged[r].core !in applied)
    {
    }
  }

  /**
   Exactly when an error of finish is sure to mean an unchanged plan, whatever its calls
   do: no transaction is open, the forwards will not be noted, or the plan stays as it is.
   All three can be seen before finish is called.
   */
  lemma FailedFinishKeepsPlanIff(w: World, applied: set<string>)
    requires Inv(w)
    ensures
      (forall replaced, noted :: Succeeds(w, applied, replaced, noted) || Finish(w, applied, replaced).plan == w.plan) <==>
      || w.tx.None? || "singbox" !in applied || Final(w.tx.value, applied) == w.plan
      || forall r: R.Resource :: r.kind.Forward? ==>
           r !in w.tx.value.wanted && (r in w.tx.value.staged ==> w.tx.value.staged[r].core in applied)
  {
    if w.tx.Some? {
      NotesForwardsIff(w.tx.value, applied);
    }
    if w.tx.Some? && w.tx.value.staged == map[] {
      assert Final(w.tx.value, applied) == map[];
    }
    if w.tx.Some? && NotesForwards(w.tx.value, applied) && Final(w.tx.value, applied) != w.plan {
      assert !Succeeds(w, applied, true, false) && Finish(w, applied, true).plan != w.plan;
    }
  }

  lemma PreparesForward(spec: Spec, e: Event)
    requires !spec.Skipped() && e.DoPrepare? && e.wanted == map[spec.resource := spec] && e.luck == Luck(true, true, true)
    requires spec.resource in e.answers && e.answers[spec.resource].Path?
    ensures var w := Step(Run([]), e);
            var pending := New(spec);
            && w.plan == map[spec.resource := pending] && w.tx.Some? && w.tx.value.staged == w.plan
            && w.tx.value.wanted == e.wanted
            && w.tx.value.candidates == map[spec.resource := pending.(pending := false, applied := e.answers[spec.resource].resolved)]
  {
    assert Staged(map[], e.wanted) == map[spec.resource := New(spec)];
  }

  /** A forward whose lease is in force although finish reported an error. */
  lemma FailedFinishMayActivate() returns (events: seq<Event>, r: R.Resource)
    ensures Admitted(events) && Inv(Run(events)) && !Succeeds(Run(events), {"singbox"}, true, false)
    ensures r !in Run([]).plan && r in Run(events).plan && Run(events).plan[r].pending
    ensures var p := Run(events + [DoFinish({"singbox"}, true)]).plan; r in p && !p[r].pending
  {
    r := R.Resource(R.Forward, 1);
    var spec := Spec(r, "singbox", false, false, true, "digest", "policy");
    var prepare := DoPrepare(map[r := spec], map[r := Path(Resolved("eth0", 1, 0))], Luck(true, true, true));
    events := [prepare];
    PreparesForward(spec, prepare);
    assert r in prepare.wanted.Keys && r.kind.Forward?;
    assert events[..0] == [] && (events + [DoFinish({"singbox"}, true)])[..1] == events;
    RunKeeps(events);
  }

  // ---------------------------------------------------------------- the loops

  lemma {:induction false} CatalogMembers(specs: seq<Spec>)
    requires Distinct(specs)
    ensures Keyed(Catalog(specs))
    ensures forall i :: 0 <= i < |specs| ==> specs[i].resource in Catalog(specs) && Catalog(specs)[specs[i].resource] == specs[i]
    ensures forall r :: r in Catalog(specs) ==> Catalog(specs)[r] in specs
  {
    if specs != [] {
      CatalogMembers(specs[..|specs| - 1]);
    }
  }

  lemma StageOne(plan: Plan, cat: map<R.Resource, Spec>, s: Spec)
    ensures Staged(plan, cat[s.resource := s]) == Staged(plan, cat)[s.resource := StageOf(s, plan)]
  {
  }

  method StagePlan(plan: Plan, specs: seq<Spec>) returns (staged: Plan)
    requires Distinct(specs)
    ensures staged == Staged(plan, Catalog(specs))
  {
    staged := map r | r in plan :: Fenced(plan[r]);
    for i := 0 to |specs|
      invariant staged == Staged(plan, Catalog(specs[..i]))
    {
      var s := specs[i];
      assert specs[..i + 1][..i] == specs[..i];
      StageOne(plan, Catalog(specs[..i]), s);
      var b := New(s);
      if s.resource in plan && !plan[s.resource].pending && !s.blocked && plan[s.resource].fingerprint == s.fingerprint {
        b := plan[s.resource];
      }
      staged := staged[s.resource := b];
    }
    assert specs[..|specs|] == specs;
  }

  /** The resources a circle from `start` has visited after some steps. */
  ghost function Visited(specs: seq<Spec>, start: nat, steps: nat): set<R.Resource>
    requires start < |specs| && steps <= |specs|
  {
    set i | 0 <= i < |specs| && T.Offset(i, start, |specs|) < steps :: specs[i].resource
  }

  function Only(cat: map<R.Resource, Spec>, keys: set<R.Resource>): map<R.Resource, Spec> {
    map r | r in cat && r in keys :: cat[r]
  }

  lemma VisitedAll(specs: seq<Spec>, start: nat)
    requires Distinct(specs) && start < |specs|
    ensures Only(Catalog(specs), Visited(specs, start, |specs|)) == Catalog(specs)
  {
    CatalogMembers(specs);
    forall r | r in Catalog(specs)
      ensures r in Visited(specs, start, |specs|)
    {
      var i :| 0 <= i < |specs| && specs[i] == Catalog(specs)[r];
    }
  }

  lemma VisitedFresh(specs: seq<Spec>, start: nat, step: nat)
    requires Distinct(specs) && start < |specs| && step < |specs|
    ensures specs[Cyclic.Slot(start + step, |specs|)].resource !in Visited(specs, start, step)
    ensures Visited(specs, start, step + 1) == Visited(specs, start, step) + {specs[Cyclic.Slot(start + step, |specs|)].resource}
  {
    var k := Cyclic.Slot(start + step, |specs|);
    assert T.Offset(k, start, |specs|) == step;
    forall i | 0 <= i < |specs| && T.Offset(i, start, |specs|) == step
      ensures i == k
    {
    }
  }

  /** One visit changes exactly the visited resource. */
  lemma VisitOne(staged: Plan, cat: map<R.Resource, Spec>, answers: Answers, keys: set<R.Resource>, r: R.Resource)
    requires r in cat && r in staged && r !in keys
    ensures var s := cat[r];
            var restaged := RestagedPlan(staged, Only(cat, keys), answers);
            && restaged[r] == staged[r]
            && RestagedPlan(staged, Only(cat, keys + {r}), answers) == restaged[r := Restaged(s, staged[r], AnswerFor(answers, r))]
            && var c := Candidate(s, staged[r], AnswerFor(answers, r));
               CandidatePlan(staged, Only(cat, keys + {r}), answers) ==
                 if c.Some? then CandidatePlan(staged, Only(cat, keys), answers)[r := c.value]
                 else CandidatePlan(staged, Only(cat, keys), answers)
  {
  }

  /** The plans after a circle has visited some steps. */
  ghost predicate ResolvedSoFar(initial: Plan, specs: seq<Spec>, answers: Answers, start: nat, step: nat, staged: Plan, candidates: Plan)
    requires start < |specs| && step <= |specs|
  {
    var some := Only(Catalog(specs), Visited(specs, start, step));
    staged == RestagedPlan(initial, some, answers) && candidates == CandidatePlan(initial, some, answers)
  }

  /** What the next visit has to do to the plans. */
  lemma ResolveStep(initial: Plan, specs: seq<Spec>, answers: Answers, start: nat, step: nat, staged: Plan, candidates: Plan)
    requires Distinct(specs) && start < |specs| && step < |specs| && Catalog(specs).Keys <= initial.Keys
    requires ResolvedSoFar(initial, specs, answers, start, step, staged, candidates)
    ensures var s := specs[Cyclic.Slot(start + step, |specs|)];
            && s.resource in staged
            && var a := AnswerFor(answers, s.resource);
               var c := Candidate(s, staged[s.resource], a);
               ResolvedSoFar(initial, specs, answers, start, step + 1,
                 staged[s.resource := Restaged(s, staged[s.resource], a)],
                 if c.Some? then candidates[s.resource := c.value] else candidates)
  {
    CatalogMembers(specs);
    var s := specs[Cyclic.Slot(start + step, |specs|)];
    VisitedFresh(specs, start, step);
    VisitOne(initial, Catalog(specs), answers, Visited(specs, start, step), s.resource);
  }

  /** Resolution in a circle; where it starts makes no difference to the outcome. */
  method ResolveAll(initial: Plan, specs: seq<Spec>, answers: Answers, start: nat) returns (staged: Plan, candidates: Plan)
    requires Distinct(specs) && start < |specs| && Catalog(specs).Keys <= initial.Keys
    ensures staged == RestagedPlan(initial, Catalog(specs), answers)
    ensures candidates == CandidatePlan(initial, Catalog(specs), answers)
  {
    staged, candidates := initial, map[];
    for step := 0 to |specs|
      invariant ResolvedSoFar(initial, specs, answers, start, step, staged, candidates)
    {
      ResolveStep(initial, specs, answers, start, step, staged, candidates);
      var s := specs[Cyclic.Slot(start + step, |specs|)];
      staged, candidates := Visit(s, AnswerFor(answers, s.resource), staged, candidates);
    }
    VisitedAll(specs, start);
  }

  /** The body of the resolution loops for one resource. */
  method Visit(s: Spec, answer: Answer, staged: Plan, candidates: Plan) returns (staged': Plan, candidates': Plan)
    requires s.resource in staged
    ensures staged' == staged[s.resource := Restaged(s, staged[s.resource], answer)]
    ensures var c := Candidate(s, staged[s.resource], answer);
            candidates' == if c.Some? then candidates[s.resource := c.value] else candidates
  {
    staged', candidates' := staged, candidates;
    var b := staged[s.resource];
    if s.Skipped() {
      return;
    }
    match answer
    case Failed =>
      if s.strict {
        staged' := staged[s.resource := Fenced(b)];
      }
    case Unsupported =>
      if s.strict && s.resource.kind.Node? {
        staged' := staged[s.resource := Fenced(b)];
      }
    case Path(p) =>
      var resolved := p;
      if !b.pending && SamePath(p, b.applied) {
        resolved := p.(sequence := b.applied.sequence);
      } else if !b.pending && s.strict {
        staged' := staged[s.resource := Fenced(b)];
      }
      candidates' := candidates[s.resource := b.(pending := false, applied := resolved)];
  }

  method FinalPlan(tx: Tx, applied: set<string>) returns (final: Plan)
    ensures final == Final(tx, applied)
  {
    final := map[];
    var left := tx.staged.Keys;
    while left != {}
      invariant left <= tx.staged.Keys
      invariant final == map r | r in Final(tx, applied) && r !in left :: Final(tx, applied)[r]
    {
      var r :| r in left;
      left := left - {r};
      var b := tx.staged[r];
      if b.core in applied {
        if r !in tx.wanted {
          continue;
        }
        b := if r in tx.candidates then tx.candidates[r] else Fenced(b);
      }
      final := final[r := b];
    }
  }

  // ---------------------------------------------------------------- the runtime

  /** Everything that may or may not work while a plan is replaced. */
  datatype Tools = Tools(healthy: bool, renewing: bool, renewed: bool, built: bool, installed: bool)

  predicate SamePaths(a: Plan, b: Plan) {
    a.Keys == b.Keys &&
    forall r :: r in a.Keys ==> a[r].(applied := a[r].applied.(lifetime := 0)) == b[r].(applied := b[r].applied.(lifetime := 0))
  }

  /** Nothing to do, renewed in place, or installed anew. */
  predicate Replaced(plan: Plan, bindings: Plan, t: Tools) {
    if plan == bindings && t.healthy then true
    else if t.renewing && SamePaths(plan, bindings) && plan != bindings then t.renewed
    else t.built && t.installed
  }

  /** What replacing a plan depends on: nothing, the renewal of lifetimes, or a whole installation. */
  lemma ReplacedWhen(plan: Plan, bindings: Plan, t: Tools)
    ensures plan == bindings && t.healthy ==> Replaced(plan, bindings, t)
    ensures plan != bindings && t.renewing && plan.Keys == bindings.Keys &&
            (forall r :: r in plan ==> exists n :: bindings[r] == plan[r].(applied := plan[r].applied.(lifetime := n))) ==>
              (Replaced(plan, bindings, t) <==> t.renewed)
    ensures (plan == bindings && !t.healthy) || (plan != bindings && !t.renewing) || plan.Keys != bindings.Keys ||
            (exists r :: r in plan && r in bindings &&
               (plan[r].(applied := NO_PATH) != bindings[r].(applied := NO_PATH) || plan[r].applied.path != bindings[r].applied.path)) ==>
              (Replaced(plan, bindings, t) <==> t.built && t.installed)
  {
  }

  class Runtime {
    var plan: Plan
    var wanted: map<R.Resource, Spec>
    var tx: Option<Tx>

    ghost function Now(): World
      reads this
    {
      World(plan, wanted, tx)
    }

    constructor ()
      ensures Now() == Run([])
    {
      plan, wanted, tx := map[], map[], None;
    }

    method Replace(bindings: Plan, t: Tools) returns (ok: bool)
      modifies this`plan
      ensures ok <==> Replaced(old(plan), bindings, t)
      ensures plan == if ok then bindings else old(plan)
    {
      if plan == bindings && t.healthy {
        return true;
      }
      if t.renewing && SamePaths(plan, bindings) && plan != bindings {
        if !t.renewed {
          return false;
        }
        plan := bindings;
        return true;
      }
      if !t.built || !t.installed {
        return false;
      }
      plan := bindings;
      return true;
    }

    method PrepareBindings(specs: seq<Spec>, answers: Answers, start: nat, load: bool, fence: Tools, refence: Tools)
      requires Distinct(specs) && (specs != [] ==> start < |specs|)
      modifies this
      ensures var staged := Staged(old(plan), Catalog(specs));
              Now() == Prepare(old(Now()), Catalog(specs), answers,
                Luck(load, Replaced(old(plan), staged, fence),
                  Replaced(staged, RestagedPlan(staged, Catalog(specs), answers), refence)))
    {
      tx := None;
      if !load {
        return;
      }
      ghost var w := Now();
      ghost var cat := Catalog(specs);
      CatalogMembers(specs);
      var staged := StagePlan(plan, specs);
      if staged == map[] {
        wanted, tx := map[], Some(Tx(map[], map[], map[]));
        assert cat.Keys <= staged.Keys;
        return;
      }
      var ok := Replace(staged, fence);
      if !ok {
        return;
      }
      ResolveAndRefence(specs, answers, start, refence);
      assert Now() == Prepare(w, cat, answers,
          Luck(load, true, Replaced(staged, RestagedPlan(staged, cat, answers), refence)));
    }

    /** The second half of prepare: candidates first, then a second fence for paths that changed. */
    method ResolveAndRefence(specs: seq<Spec>, answers: Answers, start: nat, refence: Tools)
      requires Distinct(specs) && (specs != [] ==> start < |specs|) && Catalog(specs).Keys <= plan.Keys && tx.None?
      modifies this
      ensures var staged := old(plan);
              var again := RestagedPlan(staged, Catalog(specs), answers);
              && wanted == Catalog(specs)
              && (if Replaced(staged, again, refence)
                  then plan == again && tx == Some(Tx(again, CandidatePlan(staged, Catalog(specs), answers), wanted))
                  else plan == staged && tx.None?)
    {
      wanted := Catalog(specs);
      var again, candidates := plan, map[];
      if specs != [] {
        again, candidates := ResolveAll(plan, specs, answers, start);
      }
      var ok := Replace(again, refence);
      if ok {
        tx := Some(Tx(again, candidates, wanted));
      }
    }

    /** The plan is final once it is replaced, even if noting the forwards fails afterwards. */
    method FinishBindings(applied: set<string>, t: Tools, noted: bool) returns (ok: bool)
      modifies this
      ensures var o := old(Now());
              var replaced := o.tx.Some? && Replaced(o.plan, Final(o.tx.value, applied), t);
              Now() == Finish(o, applied, replaced) && (ok <==> Succeeds(o, applied, replaced, noted))
    {
      if tx.None? {
        return false;
      }
      var open := tx.value;
      tx := None;
      if open.staged == map[] {
        return true;
      }
      var final := FinalPlan(open, applied);
      ok := Replace(final, t);
      if ok && "singbox" in applied && (HasForward(open.wanted.Keys) || HasForward(plan.Keys)) {
        ok := noted;
      }
    }
  }
}
