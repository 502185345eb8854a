/**
 Switching the traffic-billing policy (internal/agent/network_billing.go). The agent
 freezes both sides of the sampling boundary in one envelope, makes it durable,
 sends it unchanged until it is acknowledged and only then adopts the new policy.
 */
module Billing {
  import opened Durable

  const VERSION: nat := 1
  const MAX_REVISION: int := 0x20_0000_0000_0000
  const MAX_INTERFACES: nat := 16

  datatype Mode = Legacy | Interfaces | Unknown

  datatype Policy = Policy(revision: int, mode: Mode, interfaces: seq<string>)

  /** The frozen counters; `usable` stands for the checks of the snapshot itself. */
  datatype Sample = Sample(ts: int, legacyRx: int, legacyTx: int, usable: bool)

  datatype Switch = Switch(id: nat, previousRevision: int, next: Policy, sample: Sample)

  datatype State = State(policy: Option<Policy>, requested: Option<Policy>, pending: Option<Switch>)

  predicate ValidPolicy(p: Policy) {
    && 0 <= p.revision <= MAX_REVISION && !p.mode.Unknown?
    && (p.mode.Legacy? ==> p.interfaces == [])
    && (p.mode.Interfaces? ==> 1 <= |p.interfaces| <= MAX_INTERFACES)
    && (forall i, j :: 0 <= i < j < |p.interfaces| ==> p.interfaces[i] != p.interfaces[j])
    && (forall i :: 0 <= i < |p.interfaces| ==> p.interfaces[i] != "")
  }

  /** Validate of a policy. */
  method ValidatePolicy(p: Policy) returns (ok: bool)
    ensures ok <==> ValidPolicy(p)
    ensures ok <==> && 0 <= p.revision <= 0x20_0000_0000_0000
                    && ((p.mode == Legacy && p.interfaces == []) || (p.mode == Interfaces && 1 <= |p.interfaces| <= 16))
                    && (forall i :: 0 <= i < |p.interfaces| ==> p.interfaces[i] != "" && p.interfaces[i] !in p.interfaces[..i])
  {
    if p.revision < 0 || p.revision > MAX_REVISION || (p.mode != Legacy && p.mode != Interfaces) {
      return false;
    }
    if (p.mode == Legacy && |p.interfaces| != 0) || (p.mode == Interfaces && (|p.interfaces| == 0 || |p.interfaces| > MAX_INTERFACES)) {
      return false;
    }
    var seen: set<string> := {};
    for i := 0 to |p.interfaces|
      invariant seen == set k | 0 <= k < i :: p.interfaces[k]
      invariant forall k :: 0 <= k < i ==> p.interfaces[k] != "" && p.interfaces[k] !in p.interfaces[..k]
    {
      if p.interfaces[i] == "" || p.interfaces[i] in seen {
        return false;
      }
      seen := seen + {p.interfaces[i]};
    }
    return true;
  }

  predicate ValidSwitch(sw: Switch) {
    sw.sample.usable && 0 <= sw.previousRevision < sw.next.revision && ValidPolicy(sw.next)
  }

  /** What a heartbeat response says about billing. */
  datatype Response = Response(version: nat, current: Option<Policy>, requested: Option<Policy>)

  predicate ValidResponse(r: Response) {
    && r.current.Some? && r.requested.Some? && ValidPolicy(r.current.value) && ValidPolicy(r.requested.value)
    && r.current.value.revision <= r.requested.value.revision
  }

  // ---------------------------------------------------------------- the protocol

  /**
   Memory with its note that the pending switch was saved, the state file, random
   identifiers drawn so far; then every switch the file ever held, every switch
   sent, every switch acknowledged, and every policy the controller called current.
   */
  datatype World = World(
    mem: State, saved: bool, disk: State, issued: nat,
    durable: set<Switch>, sent: set<Switch>, acked: set<Switch>, told: set<Policy>)

  function Restarted(w: World): World { w.(mem := w.disk, saved := w.disk.pending.Some?) }

  /** The file now holds this state. */
  function Stored(w: World, s: State): World {
    w.(disk := s, durable := w.durable + (if s.pending.Some? then {s.pending.value} else {}))
  }

  function SaveAll(w: World, save: Save): World {
    var v := if save.Written() then Stored(w, w.mem) else w;
    if save.Died() then Restarted(v) else v
  }

  function Commit(w: World, next: State, save: Save): World {
    var v := if save.Written() then Stored(w, next) else w;
    if save.Died() then Restarted(v) else if save.Saved? then v.(mem := next) else v
  }

  /** What each way a save can end leaves in memory and in the file. */
  lemma SaveOutcomes(w: World, next: State, save: Save)
    ensures var v := Commit(w, next, save);
            && v.mem == (match save case Saved => next case DiedAfter => next case DiedBefore => w.disk case _ => w.mem)
            && v.disk == (match save case NotWritten => w.disk case DiedBefore => w.disk case _ => next)
            && (save.Died() ==> (v.saved <==> v.disk.pending.Some?))
    ensures SaveAll(w, save) == Commit(w, w.mem, save)
    ensures Restarted(w).mem == w.disk && Restarted(w).disk == w.disk
  {
  }

  datatype Reply = Lost | Answer(version: nat, ack: nat) | DiedWaiting

  predicate Confirms(reply: Reply, sw: Switch) {
    reply.Answer? && reply.version >= VERSION && reply.ack == sw.id
  }

  function Adopted(s: State, sw: Switch): State { s.(policy := Some(sw.next), pending := None) }

  function Exchange(w: World, sw: Switch, reply: Reply, save: Save): World {
    var s := w.(sent := w.sent + {sw});
    if reply.DiedWaiting? then Restarted(s)
    else if !Confirms(reply, sw) then s
    else
      var c := Commit(s.(acked := s.acked + {sw}), Adopted(w.mem, sw), save);
      if save.Saved? then c.(saved := false) else c
  }

  /** flushNetworkBilling. */
  function Flush(w: World, first: Save, reply: Reply, last: Save): World {
    if w.mem.pending.None? || !ValidSwitch(w.mem.pending.value) then w
    else if w.saved then Exchange(w, w.mem.pending.value, reply, last)
    else
      var v := SaveAll(w, first);
      if first.Saved? then Exchange(v.(saved := true), w.mem.pending.value, reply, last) else v
  }

  /** The controller's policies are what the agent already has. */
  predicate UpToDate(s: State, r: Response) {
    r.current.Some? && r.requested.Some? && r.current.value.revision == r.requested.value.revision &&
    s.policy == r.current && s.requested == r.requested
  }

  /** Adopting what the controller committed; nothing is done while a switch is pending. */
  function Told(w: World, r: Response, save: Save): World
    requires r.current.Some?
  {
    Commit(w.(told := w.told + {r.current.value}), w.mem.(policy := r.current, requested := r.requested), save)
  }

  function NextSwitch(w: World, r: Response, sample: Sample): Switch
    requires r.current.Some? && r.requested.Some?
  {
    Switch(w.issued, r.current.value.revision, r.requested.value, sample)
  }

  function Drawn(w: World): World { w.(issued := w.issued + 1) }

  function Holding(w: World, sw: Switch): World { w.(mem := w.mem.(pending := Some(sw)), saved := false) }

  /** Freezing the new switch; it stays in memory, marked unsaved, when its save fails. */
  function Frozen(w: World, sw: Switch, save: Save): World {
    var v := SaveAll(Holding(w, sw), save);
    if save.Saved? then v.(saved := true) else v
  }

  datatype Sampling = NoSample | Sampled(sample: Sample)

  datatype Attempt = Attempt(adopt: Save, sampling: Sampling, freeze: Save, first: Save, reply: Reply, last: Save)

  function Start(w: World, sw: Switch, a: Attempt): World {
    var f := Frozen(w, sw, a.freeze);
    if a.freeze.Saved? then Flush(f, a.first, a.reply, a.last) else f
  }

  function Begin(w: World, r: Response, a: Attempt): World
    requires r.current.Some? && r.requested.Some?
  {
    if a.sampling.NoSample? then w
    else
      var sw := NextSwitch(w, r, a.sampling.sample);
      if ValidSwitch(sw) then Start(Drawn(w), sw, a) else Drawn(w)
  }

  /** receiveNetworkBilling. */
  function Receive(w: World, r: Response, a: Attempt): World {
    if r.version < VERSION || w.mem.pending.Some? || !ValidResponse(r) || UpToDate(w.mem, r) then w
    else
      var v := Told(w, r, a.adopt);
      if !a.adopt.Saved? || r.current.value.revision == r.requested.value.revision then v
      else Begin(v, r, a)
  }

  datatype Event =
    | DoFlush(first: Save, reply: Reply, last: Save)
    | DoReceive(response: Response, attempt: Attempt)
    | DoSave(save: Save)
    | DoRestart

  function Step(w: World, e: Event): World {
    match e
    case DoFlush(first, reply, last) => Flush(w, first, reply, last)
    case DoReceive(response, attempt) => Receive(w, response, attempt)
    case DoSave(save) => SaveAll(w, save)
    case DoRestart => Restarted(w)
  }

  function Enrolled(): World {
    var s := State(None, None, None);
    World(s, false, s, 0, {}, {}, {}, {})
  }

  function Run(events: seq<Event>): World {
    if events == [] then Enrolled() else Step(Run(events[..|events| - 1]), events[|events| - 1])
  }

  // ---------------------------------------------------------------- safety

  /** A policy in force was stated by the controller or is the target of an acknowledged switch. */
  ghost predicate Authorized(p: Option<Policy>, w: World) {
    p.None? || p.value in w.told || exists sw :: sw in w.acked && p.value == sw.next
  }

  ghost predicate Sound(s: State, w: World) {
    && Authorized(s.policy, w)
    && (s.pending.Some? ==>
         var sw := s.pending.value;
         && sw.id < w.issued && ValidSwitch(sw)
         && s.policy.Some? && s.policy.value.revision == sw.previousRevision
         && (forall t :: t in w.sent + w.durable && t.id == sw.id ==> t == sw))
  }

  /** The file holds the pending switch, or already its acknowledged completion. */
  ghost predicate Safe(sw: Switch, w: World) {
    sw in w.durable && (w.disk.pending == Some(sw) || (w.disk.pending.None? && w.disk.policy == Some(sw.next) && sw in w.acked))
  }

  ghost predicate Inv(w: World) {
    && Sound(w.mem, w) && Sound(w.disk, w)
    && (w.saved && w.mem.pending.Some? ==> Safe(w.mem.pending.value, w))
    && (w.mem.pending.None? ==> w.disk.pending.None?)
    && (w.disk.pending.Some? ==> w.disk.pending == w.mem.pending && w.disk.pending.value in w.durable)
    && w.acked <= w.sent <= w.durable
    && (forall s :: s in w.durable ==> s.id < w.issued)
    && (forall s, t :: s in w.durable && t in w.durable && s.id == t.id ==> s == t)
    // whatever was sent and not acknowledged is still the pending switch
    && (forall s :: s in w.sent && s !in w.acked ==> w.mem.pending == Some(s) && w.disk.pending == Some(s))
  }

  lemma AuthorizedGrows(p: Option<Policy>, w: World, v: World)
    requires Authorized(p, w) && w.told <= v.told && w.acked <= v.acked
    ensures Authorized(p, v)
  {
  }

  lemma SaveAllKeeps(w: World, save: Save)
    requires Inv(w)
    ensures Inv(SaveAll(w, save))
    ensures save.Saved? ==>
      var v := SaveAll(w, save);
      v.mem == w.mem && (w.mem.pending.Some? ==> Safe(w.mem.pending.value, v)) && v.issued == w.issued
  {
    var v := SaveAll(w, save);
    AuthorizedGrows(w.mem.policy, w, v);
    AuthorizedGrows(w.disk.policy, w, v);
  }

  /** Recording the acknowledgement and adopting the target, however the save ends. */
  lemma AdoptKeeps(w: World, sw: Switch, save: Save)
    requires Inv(w) && w.mem.pending == Some(sw) && w.saved && sw in w.acked
    ensures Inv(Commit(w, Adopted(w.mem, sw), save))
    ensures save.Saved? ==> Inv(Commit(w, Adopted(w.mem, sw), save).(saved := false))
  {
    var c := Commit(w, Adopted(w.mem, sw), save);
    AuthorizedGrows(w.mem.policy, w, c);
    AuthorizedGrows(w.disk.policy, w, c);
    assert Authorized(Some(sw.next), c);
  }

  lemma SentKeeps(w: World, sw: Switch)
    requires Inv(w) && w.mem.pending == Some(sw) && w.saved
    ensures Inv(w.(sent := w.sent + {sw}))
  {
    AuthorizedGrows(w.mem.policy, w, w.(sent := w.sent + {sw}));
    AuthorizedGrows(w.disk.policy, w, w.(sent := w.sent + {sw}));
  }

  lemma AckedKeeps(w: World, sw: Switch)
    requires Inv(w) && sw in w.sent
    ensures Inv(w.(acked := w.acked + {sw}))
  {
    AuthorizedGrows(w.mem.policy, w, w.(acked := w.acked + {sw}));
    AuthorizedGrows(w.disk.policy, w, w.(acked := w.acked + {sw}));
  }

  lemma RestartKeeps(w: World)
    requires Inv(w)
    ensures Inv(Restarted(w))
  {
    AuthorizedGrows(w.disk.policy, w, Restarted(w));
  }

  lemma ExchangeKeeps(w: World, sw: Switch, reply: Reply, save: Save)
    requires Inv(w) && w.mem.pending == Some(sw) && w.saved
    ensures Inv(Exchange(w, sw, reply, save))
  {
    SentKeeps(w, sw);
    var s := w.(sent := w.sent + {sw});
    if reply.DiedWaiting? {
      RestartKeeps(s);
    } else if Confirms(reply, sw) {
      AckedKeeps(s, sw);
      AdoptKeeps(s.(acked := s.acked + {sw}), sw, save);
    }
  }

  lemma MarkKeeps(w: World)
    requires Inv(w) && (w.mem.pending.Some? ==> Safe(w.mem.pending.value, w))
    ensures Inv(w.(saved := true))
  {
    AuthorizedGrows(w.mem.policy, w, w.(saved := true));
    AuthorizedGrows(w.disk.policy, w, w.(saved := true));
  }

  lemma FlushKeeps(w: World, first: Save, reply: Reply, last: Save)
    requires Inv(w)
    ensures Inv(Flush(w, first, reply, last))
  {
    if w.mem.pending.Some? && ValidSwitch(w.mem.pending.value) {
      if w.saved {
        ExchangeKeeps(w, w.mem.pending.value, reply, last);
      } else {
        SaveAllKeeps(w, first);
        if first.Saved? {
          MarkKeeps(SaveAll(w, first));
          ExchangeKeeps(SaveAll(w, first).(saved := true), w.mem.pending.value, reply, last);
        }
      }
    }
  }

  /** Adopting what the controller calls current, with no switch pending. */
  lemma ToldKeeps(w: World, r: Response, save: Save)
    requires Inv(w) && w.mem.pending.None? && r.current.Some?
    ensures Inv(Told(w, r, save))
    ensures save.Saved? ==>
      var v := Told(w, r, save);
      v.mem.policy == r.current && v.mem.pending.None? && v.disk == v.mem
  {
    var v := Told(w, r, save);
    AuthorizedGrows(w.mem.policy, w, v);
    AuthorizedGrows(w.disk.policy, w, v);
    assert Authorized(r.current, v);
  }

  /** A fresh envelope may be frozen when nothing is pending. */
  lemma HoldingKeeps(w: World, sw: Switch)
    requires Inv(w) && w.mem.pending.None? && ValidSwitch(sw) && w.disk == w.mem && sw.id == w.issued
    requires w.mem.policy.Some? && w.mem.policy.value.revision == sw.previousRevision
    ensures Inv(Holding(Drawn(w), sw))
  {
    AuthorizedGrows(w.mem.policy, w, Holding(Drawn(w), sw));
  }

  lemma FrozenKeeps(w: World, sw: Switch, save: Save)
    requires Inv(Holding(w, sw))
    ensures Inv(Frozen(w, sw, save))
  {
    SaveAllKeeps(Holding(w, sw), save);
    if save.Saved? {
      MarkKeeps(SaveAll(Holding(w, sw), save));
    }
  }

  lemma DrawnKeeps(w: World)
    requires Inv(w)
    ensures Inv(Drawn(w))
  {
    AuthorizedGrows(w.mem.policy, w, Drawn(w));
    AuthorizedGrows(w.disk.policy, w, Drawn(w));
  }

  lemma StartKeeps(w: World, sw: Switch, a: Attempt)
    requires Inv(w) && w.mem.pending.None? && ValidSwitch(sw) && w.disk == w.mem && sw.id == w.issued
    requires w.mem.policy.Some? && w.mem.policy.value.revision == sw.previousRevision
    ensures Inv(Start(Drawn(w), sw, a))
  {
    HoldingKeeps(w, sw);
    FrozenKeeps(Drawn(w), sw, a.freeze);
    FlushKeeps(Frozen(Drawn(w), sw, a.freeze), a.first, a.reply, a.last);
  }

  lemma BeginKeeps(w: World, r: Response, a: Attempt)
    requires Inv(w) && w.mem.pending.None? && w.disk == w.mem
    requires r.current.Some? && r.requested.Some? && w.mem.policy == r.current
    ensures Inv(Begin(w, r, a))
  {
    DrawnKeeps(w);
    if a.sampling.Sampled? && ValidSwitch(NextSwitch(w, r, a.sampling.sample)) {
      StartKeeps(w, NextSwitch(w, r, a.sampling.sample), a);
    }
  }

  lemma StepKeeps(w: World, e: Event)
    requires Inv(w)
    ensures Inv(Step(w, e))
  {
    match e
    case DoFlush(first, reply, last) => FlushKeeps(w, first, reply, last);
    case DoReceive(r, a) =>
      if w.mem.pending.None? && ValidResponse(r) {
        ToldKeeps(w, r, a.adopt);
        if a.adopt.Saved? {
          BeginKeeps(Told(w, r, a.adopt), r, a);
        }
      }
    case DoSave(save) => SaveAllKeeps(w, save);
    case DoRestart => RestartKeeps(w);
  }

  lemma {:induction false} RunKeeps(events: seq<Event>)
    ensures Inv(Run(events))
  {
    if events != [] {
      RunKeeps(events[..|events| - 1]);
      StepKeeps(Run(events[..|events| - 1]), events[|events| - 1]);
    }
  }

  // ---------------------------------------------------------------- what every run promises

  /**
   In every reachable state: whatever was sent had been in the file, one identifier
   names one envelope, an unacknowledged envelope that was sent is still the pending
   one in memory and in the file, a pending envelope's target is not in force, and
   every policy in force was stated by the controller or acknowledged.
   */
  lemma SwitchSafe(events: seq<Event>)
    ensures var w := Run(events);
            && w.sent <= w.durable
            && (forall s, t :: s in w.sent && t in w.sent && s.id == t.id ==> s == t)
            && (forall s :: s in w.sent && s !in w.acked ==> w.mem.pending == Some(s) && w.disk.pending == Some(s))
            && (w.mem.pending.Some? ==> w.mem.policy.Some? && w.mem.policy.value.revision < w.mem.pending.value.next.revision)
            && Authorized(w.mem.policy, w) && Authorized(w.disk.policy, w)
  {
    RunKeeps(events);
  }

  lemma FlushSends(w: World, first: Save, reply: Reply, last: Save, sw: Switch)
    requires sw in Flush(w, first, reply, last).sent && sw !in w.sent
    ensures w.mem.pending == Some(sw) && (w.saved || first.Saved?)
  {
  }

  lemma StartSends(w: World, next: Switch, a: Attempt, sw: Switch)
    requires sw in Start(w, next, a).sent && sw !in w.sent
    ensures sw == next && a.freeze.Saved?
  {
    FlushSends(Frozen(w, next, a.freeze), a.first, a.reply, a.last, sw);
  }

  lemma BeginSends(w: World, r: Response, a: Attempt, sw: Switch)
    requires r.current.Some? && r.requested.Some? && sw in Begin(w, r, a).sent && sw !in w.sent
    ensures sw.id == w.issued && a.freeze.Saved?
  {
    StartSends(Drawn(w), NextSwitch(w, r, a.sampling.sample), a, sw);
  }

  lemma ReceiveSends(w: World, r: Response, a: Attempt, sw: Switch)
    requires sw in Receive(w, r, a).sent && sw !in w.sent
    ensures w.mem.pending.None? && sw.id == w.issued && a.freeze.Saved?
  {
    BeginSends(Told(w, r, a.adopt), r, a, sw);
  }

  /**
   A switch counts as acknowledged exactly when an answer of a capable controller names
   its own identifier. Any other answer changes nothing; with that answer and a save
   that works its target is in force, in memory and in the file.
   */
  lemma AcknowledgedIff(w: World, sw: Switch, reply: Reply, save: Save)
    requires sw !in w.acked
    ensures var v := Exchange(w, sw, reply, save);
            && (sw in v.acked <==> reply.Answer? && reply.version >= 1 && reply.ack == sw.id)
            && (sw !in v.acked && !reply.DiedWaiting? ==> v.mem == w.mem && v.disk == w.disk)
            && (reply.DiedWaiting? ==> v.mem == w.disk && v.disk == w.disk)
            && (sw in v.acked && save.Saved? ==>
                 v.mem.policy == Some(sw.next) && v.mem.pending.None? && v.disk == v.mem && !v.saved)
  {
  }

  /** The same for a whole flush, which sends only what was saved. */
  lemma FlushAcknowledgesIff(w: World, first: Save, reply: Reply, last: Save, sw: Switch)
    requires w.mem.pending == Some(sw) && ValidSwitch(sw) && sw !in w.acked
    ensures var v := Step(w, DoFlush(first, reply, last));
            && (sw in v.acked <==> (w.saved || first.Saved?) && reply.Answer? && reply.version >= 1 && reply.ack == sw.id)
            && (sw !in v.acked && !reply.DiedWaiting? && (w.saved || !first.Died()) ==> v.mem == w.mem)
            && (sw in v.acked && last.Saved? ==> v.mem.policy == Some(sw.next) && v.mem.pending.None? && v.disk == v.mem)
  {
    AcknowledgedIff(if w.saved then w else SaveAll(w, first).(saved := true), sw, reply, last);
  }

  /** The controller's statement differs from what the agent has, or asks for a switch. */
  predicate News(s: State, r: Response) {
    && r.version >= 1 && ValidResponse(r)
    && (r.current.value.revision != r.requested.value.revision || s.policy != r.current || s.requested != r.requested)
  }

  /**
   With nothing pending, such a statement is adopted if its save works; and if it asks
   for a newer revision, a usable sample and working saves put a switch on the wire
   that leads from the current revision to the requested policy with that sample.
   */
  lemma NewsIsActedOn(w: World, r: Response, a: Attempt)
    requires w.mem.pending.None? && News(w.mem, r) && a.adopt.Saved?
    ensures var v := Step(w, DoReceive(r, a));
            && r.current.value in v.told
            && (a.sampling.NoSample? || r.current.value.revision == r.requested.value.revision ==>
                 v.mem == State(r.current, r.requested, None) && v.disk == v.mem)
            && (r.current.value.revision < r.requested.value.revision && a.sampling.Sampled? && a.sampling.sample.usable && a.freeze.Saved? ==>
                 Switch(w.issued, r.current.value.revision, r.requested.value, a.sampling.sample) in v.sent)
  {
    var t := Told(w, r, a.adopt);
    assert t.mem == State(r.current, r.requested, None) && t.disk == t.mem;
  }

  /** A statement that is no news, or cannot be used, changes nothing. */
  lemma NoNewsNoChange(w: World, r: Response, a: Attempt)
    requires !News(w.mem, r)
    ensures Step(w, DoReceive(r, a)) == w
  {
  }

  /** What the controller stated and what was acknowledged is well-formed, and every switch raises the revision. */
  ghost predicate Proper(w: World) {
    && (forall p :: p in w.told ==> ValidPolicy(p))
    && (forall sw :: sw in w.sent ==> ValidSwitch(sw))
  }

  lemma StartProper(w: World, sw: Switch, a: Attempt)
    requires Proper(w) && ValidSwitch(sw)
    ensures Proper(Start(w, sw, a))
  {
  }

  lemma StepProper(w: World, e: Event)
    requires Proper(w)
    ensures Proper(Step(w, e))
  {
    if e.DoReceive? && ValidResponse(e.response) {
      var r, a := e.response, e.attempt;
      var v := Told(w, r, a.adopt);
      assert Proper(v);
      if a.sampling.Sampled? && ValidSwitch(NextSwitch(v, r, a.sampling.sample)) {
        StartProper(Drawn(v), NextSwitch(v, r, a.sampling.sample), a);
      }
    }
  }

  lemma {:induction false} RunProper(events: seq<Event>)
    ensures Proper(Run(events))
  {
    if events != [] {
      var n := |events| - 1;
      RunProper(events[..n]);
      StepProper(Run(events[..n]), events[n]);
    }
  }

  /**
   Over every run: the policy in force selects no interface, or between 1 and 16 different
   ones, and every switch ever sent carries a usable sample and raises the revision.
   */
  lemma InForceIsUsable(events: seq<Event>)
    ensures var w := Run(events);
            && (w.mem.policy.Some? ==>
                 var p := w.mem.policy.value;
                 && 0 <= p.revision <= 0x20_0000_0000_0000
                 && ((p.mode == Legacy && p.interfaces == []) || (p.mode == Interfaces && 1 <= |p.interfaces| <= 16))
                 && (forall i, j :: 0 <= i < j < |p.interfaces| ==> p.interfaces[i] != p.interfaces[j]))
            && (forall sw :: sw in w.sent ==> sw.sample.usable && sw.previousRevision < sw.next.revision)
  {
    RunKeeps(events);
    RunProper(events);
    var w := Run(events);
    if w.mem.policy.Some? {
      assert Authorized(w.mem.policy, w);
      assert ValidPolicy(w.mem.policy.value);
    }
  }

  /**
   A switch is put on the wire only behind the save that made it durable: either the
   file already held it, or the step saved it first.
   */
  lemma SentAfterDurable(w: World, e: Event, sw: Switch)
    requires Inv(w) && sw in Step(w, e).sent && sw !in w.sent
    ensures sw in Step(w, e).durable
    ensures (e.DoFlush? && w.mem.pending == Some(sw) && (if w.saved then Safe(sw, w) else e.first.Saved?)) ||
            (e.DoReceive? && w.mem.pending.None? && sw.id == w.issued && e.attempt.freeze.Saved?)
  {
    StepKeeps(w, e);
    match e
    case DoFlush(first, reply, last) => FlushSends(w, first, reply, last, sw);
    case DoReceive(r, a) => ReceiveSends(w, r, a, sw);
    case DoSave(_) =>
    case DoRestart =>
  }

  /** While a switch is pending, a newer request changes nothing. */
  lemma PendingBlocks(w: World, r: Response, a: Attempt)
    requires w.mem.pending.Some?
    ensures Step(w, DoReceive(r, a)) == w
  {
  }

  lemma FlushEnds(w: World, first: Save, reply: Reply, last: Save)
    requires Inv(w) && w.mem.pending.Some?
    ensures var sw := w.mem.pending.value;
            var v := Flush(w, first, reply, last);
            || (v.mem == w.mem)
            || (sw in v.acked && v.mem.pending.None? && v.mem.policy == Some(sw.next))
            || (v.mem == v.disk && (v.disk == w.disk || v.disk == w.mem))
  {
  }

  lemma StartEnds(w: World, sw: Switch, a: Attempt)
    ensures var v := Start(w, sw, a);
            || (v.mem.policy == w.mem.policy)
            || (sw in v.acked && v.mem.policy == Some(sw.next))
            || (v.mem == v.disk && (v.disk.policy == w.mem.policy || v.disk.policy == w.disk.policy))
  {
  }

  /** What a receive step may bring into force: the stated policy, or its acknowledged target. */
  lemma ReceiveEnds(w: World, r: Response, a: Attempt)
    requires Inv(w)
    ensures var v := Receive(w, r, a);
            || v.mem.policy == w.mem.policy
            || (w.mem.pending.None? && r.current.Some? && v.mem.policy == r.current)
            || (w.mem.pending.None? && r.requested.Some? && v.mem.policy == r.requested && Acknowledged(v, w.issued, r.requested.value))
            || (v.mem == v.disk && v.disk.policy == w.disk.policy)
  {
    if w.mem.pending.None? && ValidResponse(r) {
      var t := Told(w, r, a.adopt);
      if a.adopt.Saved? && a.sampling.Sampled? {
        var sw := NextSwitch(t, r, a.sampling.sample);
        StartEnds(Drawn(t), sw, a);
      }
    }
  }

  /** A switch with this identifier and target was acknowledged. */
  ghost predicate Acknowledged(w: World, id: nat, target: Policy) {
    exists sw :: sw in w.acked && sw.id == id && sw.next == target
  }

  /**
   A step changes the policy in force only in these ways: the controller stated it while
   nothing was pending, a switch's own identifier was acknowledged and it was the
   target, or a restart brought back what the file held.
   */
  lemma PolicyChanges(w: World, e: Event)
    requires Inv(w) && Step(w, e).mem.policy != w.mem.policy
    ensures var v := Step(w, e);
            || (e.DoReceive? && w.mem.pending.None? && e.response.current.Some? && v.mem.policy == e.response.current)
            || (e.DoReceive? && w.mem.pending.None? && v.mem.policy == e.response.requested && e.response.requested.Some?
                && Acknowledged(v, w.issued, e.response.requested.value))
            || (w.mem.pending.Some? && w.mem.pending.value in v.acked && v.mem.policy == Some(w.mem.pending.value.next))
            || (v.mem == v.disk && v.disk.policy == w.disk.policy)
  {
    match e
    case DoFlush(first, reply, last) => FlushEnds(w, first, reply, last);
    case DoReceive(r, a) => ReceiveEnds(w, r, a);
    case DoSave(_) =>
    case DoRestart =>
  }

  predicate Remembers(w: World, v: World) { w.sent <= v.sent && w.acked <= v.acked }

  lemma FlushRemembers(w: World, first: Save, reply: Reply, last: Save)
    ensures Remembers(w, Flush(w, first, reply, last))
  {
  }

  lemma StartRemembers(w: World, sw: Switch, a: Attempt)
    ensures Remembers(w, Start(w, sw, a))
  {
    FlushRemembers(Frozen(w, sw, a.freeze), a.first, a.reply, a.last);
  }

  lemma ReceiveRemembers(w: World, r: Response, a: Attempt)
    ensures Remembers(w, Receive(w, r, a))
  {
    if ValidResponse(r) && a.sampling.Sampled? {
      var t := Told(w, r, a.adopt);
      StartRemembers(Drawn(t), NextSwitch(t, r, a.sampling.sample), a);
    }
  }

  lemma StepRemembers(w: World, e: Event)
    ensures Remembers(w, Step(w, e))
  {
    match e
    case DoFlush(first, reply, last) => FlushRemembers(w, first, reply, last);
    case DoReceive(r, a) => ReceiveRemembers(w, r, a);
    case DoSave(_) =>
    case DoRestart =>
  }

  lemma {:induction false} RunRemembers(events: seq<Event>, i: nat, j: nat)
    requires i <= j <= |events|
    ensures Run(events[..i]).sent <= Run(events[..j]).sent && Run(events[..i]).acked <= Run(events[..j]).acked
  {
    if i < j {
      RunRemembers(events, i, j - 1);
      assert events[..j][..j - 1] == events[..j - 1];
      StepRemembers(Run(events[..j - 1]), events[j - 1]);
    }
  }

  /**
   Over every run: from the moment a switch was sent until it is acknowledged it is the
   pending one, unchanged, in memory and in the file, and newer requests change nothing.
   */
  lemma SentStaysPending(events: seq<Event>, i: nat, k: nat, j: nat, sw: Switch)
    requires i <= k <= j <= |events| && sw in Run(events[..i]).sent && sw !in Run(events[..j]).acked
    ensures var w := Run(events[..k]);
            && w.mem.pending == Some(sw) && w.disk.pending == Some(sw)
            && forall r: Response, a: Attempt :: Step(w, DoReceive(r, a)) == w
  {
    RunRemembers(events, i, k);
    RunRemembers(events, k, j);
    RunKeeps(events[..k]);
    forall r: Response, a: Attempt
      ensures Step(Run(events[..k]), DoReceive(r, a)) == Run(events[..k])
    {
      PendingBlocks(Run(events[..k]), r, a);
    }
  }

  // ---------------------------------------------------------------- the agent

  class Agent {
    var state: State
    var pendingSaved: bool
    var file: State
    var issued: nat
    ghost var durable: set<Switch>
    ghost var sent: set<Switch>
    ghost var acked: set<Switch>
    ghost var told: set<Policy>

    ghost function Now(): World
      reads this
    {
      World(state, pendingSaved, file, issued, durable, sent, acked, told)
    }

    constructor ()
      ensures Now() == Enrolled()
    {
      state, pendingSaved, file, issued := State(None, None, None), false, State(None, None, None), 0;
      durable, sent, acked, told := {}, {}, {}, {};
    }

    method Persist(save: Save) returns (ok: bool)
      modifies this
      ensures Now() == SaveAll(old(Now()), save) && (ok <==> save.Saved?)
    {
      if save.Written() {
        file := state;
        durable := durable + (if state.pending.Some? then {state.pending.value} else {});
      }
      if save.Died() {
        Restart();
      }
      ok := save.Saved?;
    }

    method Restart()
      modifies this
      ensures Now() == Restarted(old(Now()))
    {
      state, pendingSaved := file, file.pending.Some?;
    }

    method SendSwitch(sw: Switch, reply: Reply, save: Save)
      modifies this
      ensures Now() == Exchange(old(Now()), sw, reply, save)
    {
      sent := sent + {sw};
      if reply.DiedWaiting? {
        Restart();
        return;
      }
      if !(reply.Answer? && reply.version >= VERSION && reply.ack == sw.id) {
        return;
      }
      acked := acked + {sw};
      var before := state;
      state := state.(policy := Some(sw.next), pending := None);
      var ok := Persist(save);
      if !ok && !save.Died() {
        state := before;
      }
      if ok {
        pendingSaved := false;
      }
    }

    method FlushNetworkBilling(first: Save, reply: Reply, last: Save)
      modifies this
      ensures Now() == Flush(old(Now()), first, reply, last)
    {
      if state.pending.None? || !ValidSwitch(state.pending.value) {
        return;
      }
      var sw := state.pending.value;
      if !pendingSaved {
        var ok := Persist(first);
        if !ok {
          return;
        }
        pendingSaved := true;
      }
      SendSwitch(sw, reply, last);
    }

    method BeginSwitch(r: Response, a: Attempt)
      requires r.current.Some? && r.requested.Some?
      modifies this
      ensures Now() == Begin(old(Now()), r, a)
    {
      if a.sampling.NoSample? {
        return;
      }
      ghost var w := Now();
      var sw := Switch(issued, r.current.value.revision, r.requested.value, a.sampling.sample);
      issued := issued + 1;
      if !ValidSwitch(sw) {
        return;
      }
      state, pendingSaved := state.(pending := Some(sw)), false;
      var ok := Persist(a.freeze);
      if ok {
        pendingSaved := true;
        FlushNetworkBilling(a.first, a.reply, a.last);
      }
      assert Now() == Begin(w, r, a);
    }

    method ReceiveNetworkBilling(r: Response, a: Attempt)
      modifies this
      ensures Now() == Receive(old(Now()), r, a)
    {
      if r.version < VERSION || state.pending.Some? || !ValidResponse(r) {
        return;
      }
      var current, next := r.current.value, r.requested.value;
      if current.revision == next.revision && state.policy == Some(current) && state.requested == Some(next) {
        return;
      }
      ghost var w := Now();
      told := told + {current};
      var before := state;
      state := state.(policy := Some(current), requested := Some(next));
      var ok := Persist(a.adopt);
      if !ok && !a.adopt.Died() {
        state := before;
      }
      assert Now() == Told(w, r, a.adopt);
      if ok && current.revision != next.revision {
        BeginSwitch(r, a);
      }
    }
  }
}
