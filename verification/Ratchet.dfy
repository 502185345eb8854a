/**
 The desired-revision ratchet (internal/agent/state.go, internal/agentproto/validate.go,
 rememberNetworkIntent in internal/agent/network_binding.go and the gates of
 convergeDesired in internal/agent/agent.go): once a network-bound configuration was
 durably accepted nothing older is accepted, across failed applications, failed saves
 and restarts.
 */
module Ratchet {
  import opened Durable

  const BINDING: int := 1
  const EGRESS: int := 1
  const WIREGUARD: int := 1
  const SSH: int := 1
  const FORWARD: int := 1
  const MITA: int := 1
  const MAPPING: int := 2
  const UDP: int := 2

  datatype Network = Network(wireguard: bool, ssh: bool, transport: bool)

  datatype Node = Node(core: string, network: Option<Network>)

  datatype Target = Name | Address(restricted: bool)

  datatype Forward = Forward(tcp: bool, blocked: bool, transport: bool, target: Target, grants: bool)

  /** The versions a configuration declares. */
  datatype Declared = Declared(binding: int, egress: int, wireguard: int, ssh: int, forward: int, mita: int, mapping: int, udp: int)

  /** A configuration as offered; `mapped` tells that it carries a port-mapping section. */
  datatype Desired = Desired(
    server: int, revision: int, hash: string, nodes: seq<Node>, forwards: seq<Forward>, mapped: bool, declared: Declared)

  datatype Mark = Mark(revision: int, hash: string)

  /** The capability versions the agent remembers. */
  datatype Versions = Versions(
    binding: int, egress: int, wireguard: int, ssh: int, forward: int, mita: int, mapping: int,
    listen: int, udp: int, transport: int, dns: int, restricted: int, mieru: int)

  datatype State = State(desired: Mark, applied: Mark, versions: Versions)

  // ---------------------------------------------------------------- loading

  /** A digest as the controller writes it. */
  predicate IsDigest(h: string) {
    |h| == 64 && forall i :: 0 <= i < |h| ==> '0' <= h[i] <= '9' || 'a' <= h[i] <= 'f'
  }

  predicate Supported(v: Versions) {
    && v.binding in {0, BINDING}
    && 0 <= v.mapping <= MAPPING && 0 <= v.mieru <= 1
    && 0 <= v.listen <= 1 && 0 <= v.dns <= 1 && 0 <= v.restricted <= 1 && 0 <= v.transport <= 1
    && 0 <= v.udp <= UDP
    && (v.egress != 0 ==> v.egress == EGRESS && v.binding == BINDING)
    && (v.wireguard != 0 ==> v.wireguard == WIREGUARD && v.egress == EGRESS)
    && v.mita in {0, MITA}
    && (v.ssh != 0 ==> v.ssh == SSH && v.egress == EGRESS)
    && (v.forward != 0 ==> v.forward == FORWARD && v.binding == BINDING)
  }

  /** LoadState: refuses what it cannot interpret and repairs one older form. */
  function Load(s: State): Option<State> {
    if s.desired.revision < 0 || (s.desired.revision == 0) != (s.desired.hash == "") then None
    else if s.desired.revision > 0 && !IsHex32(s.desired.hash) then None
    else
      var binding := if s.desired.revision > 0 && s.versions.binding == 0 then BINDING else s.versions.binding;
      var t := s.(versions := s.versions.(binding := binding));
      if Supported(t.versions) then Some(t) else None
  }

  /** The mark a new configuration must not fall behind. */
  function Boundary(s: State): Mark {
    if s.desired.revision >= s.applied.revision && s.desired.revision > 0 then s.desired else s.applied
  }

  // ---------------------------------------------------------------- the gate

  predicate Follows(last: Mark, ds: Desired) {
    ds.revision >= 1 && ds.revision >= last.revision && (ds.revision == last.revision && last.hash != "" ==> ds.hash == last.hash)
  }

  predicate WellDeclared(ds: Desired) {
    var d := ds.declared;
    && 0 <= d.udp <= UDP && d.mapping in {0, MAPPING} && (ds.mapped ==> d.mapping == MAPPING) && d.mita in {0, MITA}
    && (d.forward != 0 ==> d.forward == FORWARD && d.binding == BINDING)
    && (ds.forwards != [] ==> d.forward == FORWARD)
    && d.binding in {0, BINDING}
    && (d.egress != 0 ==> d.egress == EGRESS && d.binding == BINDING)
    && (d.wireguard != 0 ==> d.wireguard == WIREGUARD && d.egress == EGRESS)
    && (d.ssh != 0 ==> d.ssh == SSH && d.egress == EGRESS)
  }

  /** ValidateDesired as far as identity, revision, digest and versions go. */
  predicate Admits(server: int, last: Mark, ds: Desired) {
    ds.server == server && Follows(last, ds) && IsDigest(ds.hash) && WellDeclared(ds)
  }

  lemma DigestIff(h: string)
    ensures IsDigest(h) <==> |h| == 64 && forall c :: c in h ==> '0' <= c <= '9' || 'a' <= c <= 'f'
  {
    assert forall i :: 0 <= i < |h| ==> h[i] in h;
  }

  lemma DeclaredIff(ds: Desired)
    ensures WellDeclared(ds) <==>
      var d := ds.declared;
      && d.binding in {0, 1} && d.egress in {0, 1} && d.wireguard in {0, 1} && d.ssh in {0, 1} && d.forward in {0, 1}
      && d.mita in {0, 1} && d.mapping in {0, 2} && d.udp in {0, 1, 2}
      && (d.forward == 1 || d.egress == 1 ==> d.binding == 1) && (d.wireguard == 1 || d.ssh == 1 ==> d.egress == 1)
      && (ds.mapped ==> d.mapping == 2) && (ds.forwards != [] ==> d.forward == 1)
  {
  }

  lemma FollowsIff(s: State, ds: Desired)
    ensures Follows(Boundary(s), ds) <==>
      && ds.revision >= 1 && ds.revision >= s.desired.revision && ds.revision >= s.applied.revision
      && (s.desired.revision >= s.applied.revision && ds.revision == s.desired.revision && s.desired.hash != "" ==>
            ds.hash == s.desired.hash)
      && (s.applied.revision > s.desired.revision && ds.revision == s.applied.revision && s.applied.hash != "" ==>
            ds.hash == s.applied.hash)
  {
  }

  /** Exactly which configurations pass the gate of an agent in this state. */
  lemma AdmitsIff(server: int, s: State, ds: Desired)
    ensures Admits(server, Boundary(s), ds) <==>
      var d := ds.declared;
      && ds.server == server && ds.revision >= 1 && ds.revision >= s.desired.revision && ds.revision >= s.applied.revision
      && (s.desired.revision >= s.applied.revision && ds.revision == s.desired.revision && s.desired.hash != "" ==>
            ds.hash == s.desired.hash)
      && (s.applied.revision > s.desired.revision && ds.revision == s.applied.revision && s.applied.hash != "" ==>
            ds.hash == s.applied.hash)
      && |ds.hash| == 64 && (forall c :: c in ds.hash ==> '0' <= c <= '9' || 'a' <= c <= 'f')
      && d.binding in {0, 1} && d.egress in {0, 1} && d.wireguard in {0, 1} && d.ssh in {0, 1} && d.forward in {0, 1}
      && d.mita in {0, 1} && d.mapping in {0, 2} && d.udp in {0, 1, 2}
      && (d.forward == 1 || d.egress == 1 ==> d.binding == 1) && (d.wireguard == 1 || d.ssh == 1 ==> d.egress == 1)
      && (ds.mapped ==> d.mapping == 2) && (ds.forwards != [] ==> d.forward == 1)
  {
    DigestIff(ds.hash);
    DeclaredIff(ds);
    FollowsIff(s, ds);
  }

  /** Exactly which state files can be loaded. */
  lemma LoadsIff(s: State)
    ensures Load(s).Some? <==>
      var v, r := s.versions, s.desired.revision;
      && r >= 0 && (r == 0 <==> s.desired.hash == "") && (r > 0 ==> IsHex32(s.desired.hash))
      && v.binding in {0, 1} && v.egress in {0, 1} && v.wireguard in {0, 1} && v.ssh in {0, 1} && v.forward in {0, 1}
      && v.mita in {0, 1} && v.mapping in {0, 1, 2} && v.udp in {0, 1, 2} && v.mieru in {0, 1}
      && v.listen in {0, 1} && v.dns in {0, 1} && v.restricted in {0, 1} && v.transport in {0, 1}
      && (v.egress == 1 || v.forward == 1 ==> v.binding == 1 || r > 0) && (v.wireguard == 1 || v.ssh == 1 ==> v.egress == 1)
  {
  }

  // ---------------------------------------------------------------- remembering an accepted configuration

  function Max(a: int, b: int): int { if a < b then b else a }

  predicate UsesListen(ns: seq<Node>) { exists i :: 0 <= i < |ns| && ns[i].network.Some? && ns[i].core != "singbox" }

  function RequiredByNode(v: Versions, n: Node): Versions {
    var m := if n.core == "mieru" then v.(mita := MITA) else v;
    match n.network
    case None => m
    case Some(net) =>
      m.(
        binding := Max(m.binding, BINDING),
        wireguard := if net.wireguard then WIREGUARD else m.wireguard,
        ssh := if net.ssh then SSH else m.ssh,
        egress := if net.transport then Max(m.egress, EGRESS) else m.egress)
  }

  function RequiredByNodes(v: Versions, ns: seq<Node>): Versions {
    if ns == [] then v else RequiredByNode(RequiredByNodes(v, ns[..|ns| - 1]), ns[|ns| - 1])
  }

  /** The versions a configuration has to declare, given what the agent remembers and whether bindings are installed. */
  function Required(s: State, ds: Desired, bound: bool): Versions {
    var v := if ds.forwards != [] then s.versions.(forward := FORWARD, binding := BINDING) else s.versions;
    var b := if s.desired.revision > 0 || bound then Max(v.binding, BINDING) else v.binding;
    RequiredByNodes(v.(binding := b), ds.nodes)
  }

  predicate Declares(d: Declared, v: Versions) {
    && d.binding >= v.binding && d.egress >= v.egress && d.wireguard >= v.wireguard
    && d.ssh >= v.ssh && d.forward >= v.forward && d.mita >= v.mita
  }

  /** One forward's traces in the remembered versions. */
  function Noted(v: Versions, f: Forward): Versions {
    v.(
      udp := if f.tcp then v.udp else UDP,
      transport := if f.transport then 1 else v.transport,
      dns := if f.target.Name? then 1 else v.dns,
      restricted := if f.grants || (f.target.Address? && f.target.restricted) then 1 else v.restricted)
  }

  predicate Unmanaged(f: Forward, udp: int) { !f.tcp && !f.blocked && udp != UDP }

  /** The loop over forwards; it stops, keeping what it noted, at a datagram forward without session management. */
  function NotedAll(v: Versions, fs: seq<Forward>, udp: int): (r: (Versions, bool)) {
    if fs == [] then (v, true)
    else
      var f := fs[|fs| - 1];
      var (u, ok) := NotedAll(v, fs[..|fs| - 1], udp);
      if !ok || Unmanaged(f, udp) then (u, false) else (Noted(u, f), true)
  }

  /** The versions a remembered configuration leaves before the network fields are taken over. */
  function NotedVersions(s: State, ds: Desired): (Versions, bool) {
    NotedAll(
      s.versions.(mita := ds.declared.mita, listen := if UsesListen(ds.nodes) then 1 else s.versions.listen),
      ds.forwards, ds.declared.udp)
  }

  datatype Verdict = Refused | Quiet | MustSave

  function Accepted(s: State, v: Versions, ds: Desired): State {
    var d := ds.declared;
    State(Mark(ds.revision, ds.hash), s.applied,
      v.(binding := d.binding, egress := d.egress, ssh := d.ssh, wireguard := d.wireguard, forward := d.forward))
  }

  /** rememberNetworkIntent up to its save: memory changes even when the configuration is refused half-way. */
  function Intent(s: State, ds: Desired, bound: bool): (State, Verdict) {
    var required := Required(s, ds, bound);
    if !Declares(ds.declared, required) then (s, Refused)
    else
      var (noted, ok) := NotedVersions(s, ds);
      if !ok then (s.(versions := noted), Refused)
      else if ds.declared.binding == 0 then (s.(versions := noted), if required.mita > 0 then MustSave else Quiet)
      else (Accepted(s, noted, ds), MustSave)
  }

  method NoteForwards(v: Versions, fs: seq<Forward>, udp: int) returns (u: Versions, ok: bool)
    ensures (u, ok) == NotedAll(v, fs, udp)
  {
    u, ok := v, true;
    for i := 0 to |fs|
      invariant (u, ok) == NotedAll(v, fs[..i], udp) && ok
    {
      var f := fs[i];
      assert fs[..i + 1][..i] == fs[..i];
      if !f.tcp {
        if !f.blocked && udp != UDP {
          NotedStops(v, fs, udp, i + 1);
          return u, false;
        }
        u := u.(udp := UDP);
      }
      if f.transport {
        u := u.(transport := 1);
      }
      if f.target.Name? {
        u := u.(dns := 1);
      } else if f.target.restricted {
        u := u.(restricted := 1);
      }
      if f.grants {
        u := u.(restricted := 1);
      }
    }
    assert fs[..|fs|] == fs;
  }

  /** Once the loop stopped, later forwards change nothing. */
  lemma {:induction false} NotedStops(v: Versions, fs: seq<Forward>, udp: int, i: nat)
    requires i <= |fs| && !NotedAll(v, fs[..i], udp).1
    ensures NotedAll(v, fs, udp) == NotedAll(v, fs[..i], udp)
  {
    if i == |fs| {
      assert fs[..i] == fs;
    } else {
      assert fs[..|fs| - 1][..i] == fs[..i];
      NotedStops(v, fs[..|fs| - 1], udp, i);
    }
  }

  method RequiredVersions(s: State, ds: Desired, bound: bool) returns (v: Versions)
    ensures v == Required(s, ds, bound)
  {
    v := s.versions;
    if ds.forwards != [] {
      v := v.(forward := FORWARD, binding := BINDING);
    }
    if s.desired.revision > 0 || bound {
      v := v.(binding := Max(v.binding, BINDING));
    }
    ghost var u := v;
    for i := 0 to |ds.nodes|
      invariant v == RequiredByNodes(u, ds.nodes[..i])
    {
      assert ds.nodes[..i + 1][..i] == ds.nodes[..i];
      v := RequiredByNode(v, ds.nodes[i]);
    }
    assert ds.nodes[..|ds.nodes|] == ds.nodes;
  }

  // ---------------------------------------------------------------- the agent over time

  /** Memory, state file and the configuration being applied. */
  datatype World = World(server: int, mem: State, disk: State, current: Option<Desired>)

  function Restarted(w: World): World {
    w.(mem := Load(w.disk).GetOr(w.disk), current := None)
  }

  function SaveAll(w: World, save: Save): World {
    var v := w.(disk := File(w.mem, w.disk, save));
    if save.Died() then Restarted(v) else v
  }

  /** What each way a save can end leaves in the file; a restart loads it and has nothing under way. */
  lemma SaveOutcomes(w: World, save: Save)
    ensures var v := SaveAll(w, save);
            && v.disk == (match save case NotWritten => w.disk case DiedBefore => w.disk case _ => w.mem)
            && (save.Died() ==> v.current.None? && v.mem == Load(v.disk).GetOr(v.disk))
            && (!save.Died() ==> v.mem == w.mem && v.current == w.current)
  {
  }

  /** rememberNATIntent. */
  function Mapped(w: World, ds: Desired, save: Save): World {
    if ds.mapped && w.mem.versions.mapping < MAPPING then
      SaveAll(w.(mem := w.mem.(versions := w.mem.versions.(mapping := MAPPING))), save)
    else w
  }

  predicate MappingDone(w: World, ds: Desired, save: Save) {
    ds.mapped && w.mem.versions.mapping < MAPPING ==> save.Saved?
  }

  /** rememberNetworkIntent; application starts only when it succeeds. */
  function Remembered(w: World, ds: Desired, bound: bool, save: Save): World {
    var (s, verdict) := Intent(w.mem, ds, bound);
    var v := w.(mem := s);
    match verdict
    case Refused => v
    case Quiet => v.(current := Some(ds))
    case MustSave =>
      var x := SaveAll(v, save);
      if save.Saved? then x.(current := Some(ds)) else x
  }

  /** convergeDesired up to the start of the application. */
  function Accept(w: World, ds: Desired, bound: bool, mapping: Save, intent: Save): World {
    if w.current.Some? || !Admits(w.server, Boundary(w.mem), ds) then w
    else
      var m := Mapped(w, ds, mapping);
      if MappingDone(w, ds, mapping) then Remembered(m, ds, bound, intent) else m
  }

  /** The end of convergeDesired; only a successful application moves the applied mark. */
  function Conclude(w: World, success: bool, save: Save): World {
    match w.current
    case None => w
    case Some(ds) =>
      var s := if success then w.mem.(applied := Mark(ds.revision, ds.hash)) else w.mem;
      SaveAll(w.(mem := s, current := None), save)
  }

  /** An application with a mieru core on OpenRC notes that before its first save. */
  function NoteMieru(w: World, save: Save): World {
    if w.current.None? then w else SaveAll(w.(mem := w.mem.(versions := w.mem.versions.(mieru := 1))), save)
  }

  datatype Event =
    | DoAccept(ds: Desired, bound: bool, mapping: Save, intent: Save)
    | DoConclude(success: bool, lastSave: Save)
    | DoMieru(mieruSave: Save)
    | DoSave(save: Save)
    | DoRestart

  function Step(w: World, e: Event): World {
    match e
    case DoAccept(ds, bound, mapping, intent) => Accept(w, ds, bound, mapping, intent)
    case DoConclude(success, save) => Conclude(w, success, save)
    case DoMieru(save) => NoteMieru(w, save)
    case DoSave(save) => SaveAll(w, save)
    case DoRestart => Restarted(w)
  }

  /** A process started on a state file it can load. */
  function Started(server: int, file: State): World {
    World(server, Load(file).GetOr(file), file, None)
  }

  function Run(w: World, events: seq<Event>): World {
    if events == [] then w else Step(Run(w, events[..|events| - 1]), events[|events| - 1])
  }

  // ---------------------------------------------------------------- safety

  /** `b` is later than `a`, or the same configuration. */
  predicate AtMost(a: Mark, b: Mark) {
    a.revision <= 0 || a.revision < b.revision || a == b
  }

  predicate NoOlder(a: Versions, b: Versions) {
    && a.binding <= b.binding && a.egress <= b.egress && a.wireguard <= b.wireguard && a.ssh <= b.ssh
    && a.forward <= b.forward && a.mita <= b.mita && a.mapping <= b.mapping && a.listen <= b.listen
    && a.udp <= b.udp && a.transport <= b.transport && a.dns <= b.dns && a.restricted <= b.restricted && a.mieru <= b.mieru
  }

  /** Marks carry a digest, and two marks of one revision agree. */
  predicate Consistent(s: State) {
    && s.applied.revision >= 0 && (s.applied.revision > 0 ==> s.applied.hash != "")
    && (s.applied.revision == s.desired.revision > 0 ==> s.applied == s.desired)
  }

  /** A state that a restart takes over as it is. */
  predicate Settled(s: State) { Load(s) == Some(s) && Consistent(s) }

  predicate Inv(w: World) {
    && Settled(w.mem) && Load(w.disk).Some? && Consistent(w.disk)
    && AtMost(Boundary(w.disk), Boundary(w.mem)) && NoOlder(w.disk.versions, w.mem.versions)
    && (w.current.Some? ==>
         var ds := w.current.value;
         IsDigest(ds.hash) && ds.revision >= 1 && AtMost(Boundary(w.mem), Mark(ds.revision, ds.hash)))
  }

  /** What one step does to the file: the boundary and the versions only move forward. */
  predicate Advances(w: World, v: World) {
    AtMost(Boundary(w.disk), Boundary(v.disk)) && NoOlder(w.disk.versions, v.disk.versions)
  }

  lemma SaveAllKeeps(w: World, save: Save)
    requires Inv(w)
    ensures Inv(SaveAll(w, save)) && Advances(w, SaveAll(w, save))
  {
  }

  lemma {:induction false} RequiredByNodesGrows(v: Versions, ns: seq<Node>)
    requires v.wireguard <= WIREGUARD && v.ssh <= SSH && v.mita <= MITA
    ensures var r := RequiredByNodes(v, ns);
            && v.binding <= r.binding && v.egress <= r.egress && v.wireguard <= r.wireguard <= WIREGUARD
            && v.ssh <= r.ssh <= SSH && v.mita <= r.mita <= MITA && v.forward == r.forward
  {
    if ns != [] {
      RequiredByNodesGrows(v, ns[..|ns| - 1]);
    }
  }

  /** Only the versions of forward features change, and only upwards within what is supported. */
  predicate Notes(v: Versions, u: Versions) {
    && u == v.(udp := u.udp, transport := u.transport, dns := u.dns, restricted := u.restricted)
    && v.udp <= u.udp <= UDP && v.transport <= u.transport <= 1 && v.dns <= u.dns <= 1 && v.restricted <= u.restricted <= 1
  }

  lemma {:induction false} NotedAllNotes(v: Versions, fs: seq<Forward>, udp: int)
    requires v.udp <= UDP && v.transport <= 1 && v.dns <= 1 && v.restricted <= 1
    ensures Notes(v, NotedAll(v, fs, udp).0)
  {
    if fs != [] {
      NotedAllNotes(v, fs[..|fs| - 1], udp);
    }
  }

  lemma RequiredGrows(s: State, ds: Desired, bound: bool)
    requires Supported(s.versions)
    ensures var r := Required(s, ds, bound);
            && s.versions.binding <= r.binding && s.versions.egress <= r.egress && s.versions.wireguard <= r.wireguard
            && s.versions.ssh <= r.ssh && s.versions.forward <= r.forward && s.versions.mita <= r.mita
            && (s.desired.revision > 0 ==> r.binding >= BINDING)
  {
    var v := if ds.forwards != [] then s.versions.(forward := FORWARD, binding := BINDING) else s.versions;
    var b := if s.desired.revision > 0 || bound then Max(v.binding, BINDING) else v.binding;
    RequiredByNodesGrows(v.(binding := b), ds.nodes);
  }

  lemma NotedKeeps(s: State, ds: Desired)
    requires Settled(s) && WellDeclared(ds) && s.versions.mita <= ds.declared.mita
    ensures var noted := NotedVersions(s, ds).0;
            && Settled(s.(versions := noted)) && NoOlder(s.versions, noted)
            && noted.binding == s.versions.binding && noted.egress == s.versions.egress && noted.wireguard == s.versions.wireguard
            && noted.ssh == s.versions.ssh && noted.forward == s.versions.forward && noted.mita == ds.declared.mita
  {
    NotedAllNotes(
      s.versions.(mita := ds.declared.mita, listen := if UsesListen(ds.nodes) then 1 else s.versions.listen),
      ds.forwards, ds.declared.udp);
  }

  lemma AcceptedKeeps(s: State, v: Versions, ds: Desired)
    requires Settled(s) && Settled(s.(versions := v)) && NoOlder(s.versions, v)
    requires IsDigest(ds.hash) && WellDeclared(ds) && Follows(Boundary(s), ds) && ds.declared.binding > 0
    requires Declares(ds.declared, v)
    ensures var t := Accepted(s, v, ds);
            && Settled(t) && NoOlder(s.versions, t.versions) && Boundary(t) == Mark(ds.revision, ds.hash)
            && AtMost(Boundary(s), Boundary(t))
  {
  }

  /**
   However rememberNetworkIntent ends, what it leaves in memory can be saved, loaded
   again unchanged, is not older than before and does not pass the offered mark.
   */
  lemma IntentKeeps(s: State, ds: Desired, bound: bool)
    requires Settled(s) && IsDigest(ds.hash) && WellDeclared(ds) && Follows(Boundary(s), ds)
    ensures var (t, verdict) := Intent(s, ds, bound);
            && Settled(t) && NoOlder(s.versions, t.versions) && t.applied == s.applied
            && AtMost(Boundary(s), Boundary(t)) && AtMost(Boundary(t), Mark(ds.revision, ds.hash))
            && (verdict.Refused? ==> t.desired == s.desired)
            && (!verdict.Refused? && ds.declared.binding > 0 ==> t.desired == Mark(ds.revision, ds.hash))
  {
    RequiredGrows(s, ds, bound);
    if Declares(ds.declared, Required(s, ds, bound)) {
      NotedKeeps(s, ds);
      var (noted, ok) := NotedVersions(s, ds);
      if ok && ds.declared.binding > 0 {
        AcceptedKeeps(s, noted, ds);
      }
    }
  }

  /** Some node satisfies the flag of its network. */
  predicate SomeNetwork(ns: seq<Node>, wg: bool, ssh: bool, transport: bool) {
    exists n :: n in ns && n.network.Some? &&
      (wg ==> n.network.value.wireguard) && (ssh ==> n.network.value.ssh) && (transport ==> n.network.value.transport)
  }

  lemma NodeDemands(n: Node)
    ensures SomeNetwork([n], false, false, false) <==> n.network.Some?
    ensures SomeNetwork([n], true, false, false) <==> n.network.Some? && n.network.value.wireguard
    ensures SomeNetwork([n], false, true, false) <==> n.network.Some? && n.network.value.ssh
    ensures SomeNetwork([n], false, false, true) <==> n.network.Some? && n.network.value.transport
  {
    assert n in [n];
  }

  /** What a configuration has to declare: whatever it uses, and whatever was remembered. */
  predicate Suffices(s: State, ds: Desired, bound: bool) {
    var d, v := ds.declared, s.versions;
    && d.binding >= v.binding && d.egress >= v.egress && d.wireguard >= v.wireguard
    && d.ssh >= v.ssh && d.forward >= v.forward && d.mita >= v.mita
    && (ds.forwards != [] ==> d.forward >= 1 && d.binding >= 1)
    && (s.desired.revision > 0 || bound || SomeNetwork(ds.nodes, false, false, false) ==> d.binding >= 1)
    && (SomeNetwork(ds.nodes, true, false, false) ==> d.wireguard >= 1)
    && (SomeNetwork(ds.nodes, false, true, false) ==> d.ssh >= 1)
    && (SomeNetwork(ds.nodes, false, false, true) ==> d.egress >= 1)
    && ((exists n :: n in ds.nodes && n.core == "mieru") ==> d.mita >= 1)
  }

  /** A live datagram forward without session management. */
  predicate UnmanagedDatagram(ds: Desired) {
    exists f :: f in ds.forwards && !f.tcp && !f.blocked && ds.declared.udp != 2
  }

  lemma {:induction false} NotedAllStops(v: Versions, fs: seq<Forward>, udp: int)
    ensures NotedAll(v, fs, udp).1 <==> !exists f :: f in fs && !f.tcp && !f.blocked && udp != 2
  {
    if fs != [] {
      var k := |fs| - 1;
      NotedAllStops(v, fs[..k], udp);
      assert fs == fs[..k] + [fs[k]];
    }
  }

  /** Declaring what nodes demand on top of given versions. */
  lemma NodesDemand(v: Versions, ns: seq<Node>, d: Declared)
    requires v.binding <= 1 && v.egress <= 1 && v.wireguard <= 1 && v.ssh <= 1 && v.mita <= 1
    ensures Declares(d, RequiredByNodes(v, ns)) <==>
      && Declares(d, v)
      && (SomeNetwork(ns, false, false, false) ==> d.binding >= 1)
      && (SomeNetwork(ns, true, false, false) ==> d.wireguard >= 1)
      && (SomeNetwork(ns, false, true, false) ==> d.ssh >= 1)
      && (SomeNetwork(ns, false, false, true) ==> d.egress >= 1)
      && ((exists n :: n in ns && n.core == "mieru") ==> d.mita >= 1)
  {
    RequiredByNodesExactly(v, ns);
  }

  lemma RequiredDemands(s: State, ds: Desired, bound: bool)
    requires Supported(s.versions) && 0 <= s.versions.forward && 0 <= s.versions.wireguard && 0 <= s.versions.ssh && 0 <= s.versions.egress
    ensures Declares(ds.declared, Required(s, ds, bound)) <==> Suffices(s, ds, bound)
  {
    var v := if ds.forwards != [] then s.versions.(forward := FORWARD, binding := BINDING) else s.versions;
    var b := if s.desired.revision > 0 || bound then Max(v.binding, BINDING) else v.binding;
    NodesDemand(v.(binding := b), ds.nodes, ds.declared);
  }

  lemma SomeNetworkSnoc(ns: seq<Node>, n: Node, wg: bool, ssh: bool, transport: bool)
    ensures SomeNetwork(ns + [n], wg, ssh, transport) <==>
      SomeNetwork(ns, wg, ssh, transport) || SomeNetwork([n], wg, ssh, transport)
  {
    if SomeNetwork(ns, wg, ssh, transport) {
      var m :| m in ns && m.network.Some? &&
        (wg ==> m.network.value.wireguard) && (ssh ==> m.network.value.ssh) && (transport ==> m.network.value.transport);
      assert m in ns + [n];
    }
    assert n in [n] && n in ns + [n];
  }

  lemma MieruSnoc(ns: seq<Node>, n: Node)
    ensures (exists m :: m in ns + [n] && m.core == "mieru") <==> (exists m :: m in ns && m.core == "mieru") || n.core == "mieru"
  {
    assert n in ns + [n];
    assert forall m :: m in ns ==> m in ns + [n];
  }

  /** What nodes demand, on top of given versions. */
  lemma {:induction false} RequiredByNodesExactly(v: Versions, ns: seq<Node>)
    requires v.binding <= 1 && v.egress <= 1
    ensures var r := RequiredByNodes(v, ns);
            && r.binding == (if SomeNetwork(ns, false, false, false) then 1 else v.binding)
            && r.wireguard == (if SomeNetwork(ns, true, false, false) then 1 else v.wireguard)
            && r.ssh == (if SomeNetwork(ns, false, true, false) then 1 else v.ssh)
            && r.egress == (if SomeNetwork(ns, false, false, true) then 1 else v.egress)
            && r.mita == (if exists n :: n in ns && n.core == "mieru" then 1 else v.mita)
            && r.forward == v.forward
  {
    if ns != [] {
      var k := |ns| - 1;
      RequiredByNodesExactly(v, ns[..k]);
      assert ns == ns[..k] + [ns[k]];
      SomeNetworkSnoc(ns[..k], ns[k], false, false, false);
      SomeNetworkSnoc(ns[..k], ns[k], true, false, false);
      SomeNetworkSnoc(ns[..k], ns[k], false, true, false);
      SomeNetworkSnoc(ns[..k], ns[k], false, false, true);
      MieruSnoc(ns[..k], ns[k]);
      NodeDemands(ns[k]);
    }
  }

  /**
   Exactly when a configuration is remembered: it declares whatever it uses and whatever
   was remembered before, and its datagram forwards have their session management.
   */
  lemma RememberedIff(s: State, ds: Desired, bound: bool)
    requires Settled(s)
    ensures !Intent(s, ds, bound).1.Refused? <==> Suffices(s, ds, bound) && !UnmanagedDatagram(ds)
    ensures !Intent(s, ds, bound).1.Refused? && ds.declared.binding == 0 ==>
      (Intent(s, ds, bound).1.MustSave? <==> s.versions.mita > 0 || exists n :: n in ds.nodes && n.core == "mieru")
  {
    RequiredDemands(s, ds, bound);
    var first := s.versions.(mita := ds.declared.mita, listen := if UsesListen(ds.nodes) then 1 else s.versions.listen);
    NotedAllStops(first, ds.forwards, ds.declared.udp);
    var v := if ds.forwards != [] then s.versions.(forward := FORWARD, binding := BINDING) else s.versions;
    var b := if s.desired.revision > 0 || bound then Max(v.binding, BINDING) else v.binding;
    RequiredByNodesExactly(v.(binding := b), ds.nodes);
  }

  lemma {:induction false} NotedAllExactly(v: Versions, fs: seq<Forward>, udp: int)
    requires NotedAll(v, fs, udp).1
    ensures var u := NotedAll(v, fs, udp).0;
            && u.udp == (if exists f :: f in fs && !f.tcp then 2 else v.udp)
            && u.transport == (if exists f :: f in fs && f.transport then 1 else v.transport)
            && u.dns == (if exists f :: f in fs && f.target.Name? then 1 else v.dns)
            && u.restricted == (if exists f :: f in fs && (f.grants || (f.target.Address? && f.target.restricted)) then 1 else v.restricted)
            && u == v.(udp := u.udp, transport := u.transport, dns := u.dns, restricted := u.restricted)
  {
    if fs != [] {
      var k := |fs| - 1;
      NotedAllExactly(v, fs[..k], udp);
      assert fs == fs[..k] + [fs[k]];
    }
  }

  /** What is remembered of a configuration: what it declares, and the forward features it uses. */
  lemma RememberedExactly(s: State, ds: Desired, bound: bool)
    requires !Intent(s, ds, bound).1.Refused?
    ensures var (t, v) := (Intent(s, ds, bound).0, s.versions);
            var u := t.versions;
            && t.applied == s.applied && u.mita == ds.declared.mita && u.mapping == v.mapping && u.mieru == v.mieru
            && u.listen == (if exists n :: n in ds.nodes && n.network.Some? && n.core != "singbox" then 1 else v.listen)
            && u.udp == (if exists f :: f in ds.forwards && !f.tcp then 2 else v.udp)
            && u.transport == (if exists f :: f in ds.forwards && f.transport then 1 else v.transport)
            && u.dns == (if exists f :: f in ds.forwards && f.target.Name? then 1 else v.dns)
            && u.restricted == (if exists f :: f in ds.forwards && (f.grants || (f.target.Address? && f.target.restricted)) then 1 else v.restricted)
            && (ds.declared.binding == 0 ==>
                  t.desired == s.desired && u.binding == v.binding && u.egress == v.egress
                  && u.wireguard == v.wireguard && u.ssh == v.ssh && u.forward == v.forward)
            && (ds.declared.binding != 0 ==>
                  t.desired == Mark(ds.revision, ds.hash) && u.binding == ds.declared.binding && u.egress == ds.declared.egress
                  && u.wireguard == ds.declared.wireguard && u.ssh == ds.declared.ssh && u.forward == ds.declared.forward)
  {
    var first := s.versions.(mita := ds.declared.mita, listen := if UsesListen(ds.nodes) then 1 else s.versions.listen);
    NotedAllExactly(first, ds.forwards, ds.declared.udp);
  }

  /** One configuration needs a save of the agent's intent before it may be applied. */
  predicate NeedsSave(s: State, ds: Desired) {
    ds.declared.binding != 0 || s.versions.mita > 0 || exists n :: n in ds.nodes && n.core == "mieru"
  }

  lemma RememberedWhen(m: World, ds: Desired, bound: bool, save: Save)
    requires Settled(m.mem) && m.current.None?
    ensures Remembered(m, ds, bound, save).current.Some? <==>
      Suffices(m.mem, ds, bound) && !UnmanagedDatagram(ds) && (NeedsSave(m.mem, ds) ==> save.Saved?)
    ensures Remembered(m, ds, bound, save).current in {None, Some(ds)}
  {
    RememberedIff(m.mem, ds, bound);
  }

  /**
   Exactly when an application starts: the configuration passes the gate, a new port
   mapping was noted, the declaration suffices, datagram forwards are managed, and what
   has to be remembered was saved.
   */
  lemma AcceptedIff(w: World, ds: Desired, bound: bool, mapping: Save, intent: Save)
    requires Inv(w) && w.current.None?
    ensures var v := Accept(w, ds, bound, mapping, intent);
            && v.current in {None, Some(ds)}
            && (v.current.Some? <==>
                 && Admits(w.server, Boundary(w.mem), ds) && (ds.mapped && w.mem.versions.mapping < 2 ==> mapping.Saved?)
                 && Suffices(w.mem, ds, bound) && !UnmanagedDatagram(ds)
                 && (ds.declared.binding != 0 || w.mem.versions.mita > 0 || (exists n :: n in ds.nodes && n.core == "mieru") ==>
                       intent.Saved?))
  {
    var m := Mapped(w, ds, mapping);
    MappedKeeps(w, ds, mapping);
    if MappingDone(w, ds, mapping) {
      assert m.current.None? && m.mem == w.mem.(versions := w.mem.versions.(mapping := m.mem.versions.mapping));
      assert Suffices(m.mem, ds, bound) == Suffices(w.mem, ds, bound) && NeedsSave(m.mem, ds) == NeedsSave(w.mem, ds);
      RememberedWhen(m, ds, bound, intent);
    }
  }

  /** A refusal half-way keeps the traces of the forwards before the first unmanaged one, and nothing else. */
  lemma {:induction false} NotedUntil(v: Versions, fs: seq<Forward>, udp: int, k: nat)
    requires k < |fs| && Unmanaged(fs[k], udp) && forall i :: 0 <= i < k ==> !Unmanaged(fs[i], udp)
    ensures NotedAll(v, fs[..k], udp).1 && NotedAll(v, fs, udp) == (NotedAll(v, fs[..k], udp).0, false)
  {
    NotedAllStops(v, fs[..k], udp);
    assert fs[..k + 1][..k] == fs[..k];
    NotedStops(v, fs, udp, k + 1);
  }

  lemma RefusedHalfWay(s: State, ds: Desired, bound: bool, k: nat)
    requires Declares(ds.declared, Required(s, ds, bound)) && k < |ds.forwards|
    requires Unmanaged(ds.forwards[k], ds.declared.udp) && forall i :: 0 <= i < k ==> !Unmanaged(ds.forwards[i], ds.declared.udp)
    ensures var (t, verdict) := Intent(s, ds, bound);
            var u, before := t.versions, ds.forwards[..k];
            && verdict == Refused && t.desired == s.desired && t.applied == s.applied
            && u.mita == ds.declared.mita && u.binding == s.versions.binding && u.forward == s.versions.forward
            && u.udp == (if exists f :: f in before && !f.tcp then 2 else s.versions.udp)
            && u.dns == (if exists f :: f in before && f.target.Name? then 1 else s.versions.dns)
            && u.transport == (if exists f :: f in before && f.transport then 1 else s.versions.transport)
  {
    var first := s.versions.(mita := ds.declared.mita, listen := if UsesListen(ds.nodes) then 1 else s.versions.listen);
    NotedUntil(first, ds.forwards, ds.declared.udp, k);
    NotedAllExactly(first, ds.forwards[..k], ds.declared.udp);
  }

  /** The end of an application: only success moves the applied mark, and nothing else moves. */
  lemma ConcludeRecords(w: World, success: bool, save: Save)
    requires w.current.Some?
    ensures var v := Conclude(w, success, save);
            var ds := w.current.value;
            v.current.None? && (!save.Died() ==>
              v.mem == w.mem.(applied := if success then Mark(ds.revision, ds.hash) else w.mem.applied) &&
              v.disk == (if save.Written() then v.mem else w.disk))
  {
  }

  /** While a network-bound configuration is being applied, memory and file both hold its mark. */
  ghost predicate Durably(w: World) {
    w.current.Some? && w.current.value.declared.binding > 0 ==>
      w.mem.desired == Mark(w.current.value.revision, w.current.value.hash) == w.disk.desired
  }

  lemma AcceptDurably(w: World, ds: Desired, bound: bool, mapping: Save, intent: Save)
    requires Durably(w)
    ensures Durably(Accept(w, ds, bound, mapping, intent))
  {
    if w.current.None? {
      var m := Mapped(w, ds, mapping);
      assert m.current.None?;
      if !Intent(m.mem, ds, bound).1.Refused? {
        RememberedExactly(m.mem, ds, bound);
      }
    }
  }

  lemma {:induction false} AppliedOnlyWhenDurable(w: World, events: seq<Event>)
    requires w.current.None?
    ensures Durably(Run(w, events))
  {
    if events != [] {
      var n := |events| - 1;
      AppliedOnlyWhenDurable(w, events[..n]);
      var e := events[n];
      if e.DoAccept? {
        AcceptDurably(Run(w, events[..n]), e.ds, e.bound, e.mapping, e.intent);
      }
    }
  }

  /**
   Over every run, with failed saves, failed applications and restarts: a network-bound
   configuration is applied only while the file holds its revision and digest.
   */
  lemma UnderWayIsDurable(w: World, events: seq<Event>)
    requires w.current.None?
    ensures var v := Run(w, events);
            v.current.Some? && v.current.value.declared.binding > 0 ==>
              v.disk.desired == Mark(v.current.value.revision, v.current.value.hash)
  {
    AppliedOnlyWhenDurable(w, events);
  }

  /** What a loaded state guarantees: a digest with every revision, and every version with those it builds on. */
  lemma LoadedIsConsistent(s: State)
    requires Load(s).Some?
    ensures var t := Load(s).value;
            && t.desired == s.desired && t.applied == s.applied && Load(t) == Some(t)
            && (t.desired.revision > 0 <==> t.desired.hash != "") && (t.desired.revision > 0 ==> |t.desired.hash| == 64 && t.versions.binding == 1)
            && (t.versions.egress != 0 || t.versions.forward != 0 ==> t.versions.binding == 1)
            && (t.versions.wireguard != 0 || t.versions.ssh != 0 ==> t.versions.egress == 1)
            && t.versions == s.versions.(binding := t.versions.binding)
            && (t.versions.binding != s.versions.binding ==> s.versions.binding == 0 && s.desired.revision > 0)
            && t.versions.binding in {0, 1} && t.versions.mita in {0, 1} && 0 <= t.versions.udp <= 2 && 0 <= t.versions.mapping <= 2
  {
  }

  lemma MappedKeeps(w: World, ds: Desired, save: Save)
    requires Inv(w)
    ensures Inv(Mapped(w, ds, save)) && Advances(w, Mapped(w, ds, save))
    ensures MappingDone(w, ds, save) ==> Boundary(Mapped(w, ds, save).mem) == Boundary(w.mem)
  {
    var v := w.(mem := w.mem.(versions := w.mem.versions.(mapping := MAPPING)));
    if ds.mapped && w.mem.versions.mapping < MAPPING {
      assert Inv(v);
      SaveAllKeeps(v, save);
    }
  }

  /** The file may not be ahead of memory after memory moved forward. */
  lemma MovedKeeps(w: World, s: State)
    requires Inv(w) && w.current.None? && Settled(s) && NoOlder(w.mem.versions, s.versions) && AtMost(Boundary(w.mem), Boundary(s))
    ensures Inv(w.(mem := s)) && Advances(w, w.(mem := s))
  {
  }

  lemma ChosenKeeps(w: World, ds: Desired)
    requires Inv(w) && IsDigest(ds.hash) && ds.revision >= 1 && AtMost(Boundary(w.mem), Mark(ds.revision, ds.hash))
    ensures Inv(w.(current := Some(ds)))
  {
  }

  lemma RememberedKeeps(w: World, ds: Desired, bound: bool, save: Save)
    requires Inv(w) && w.current.None? && Admits(w.server, Boundary(w.mem), ds)
    ensures Inv(Remembered(w, ds, bound, save)) && Advances(w, Remembered(w, ds, bound, save))
  {
    IntentKeeps(w.mem, ds, bound);
    var (s, verdict) := Intent(w.mem, ds, bound);
    var m := w.(mem := s);
    MovedKeeps(w, s);
    match verdict
    case Refused =>
    case Quiet => ChosenKeeps(m, ds);
    case MustSave =>
      SaveAllKeeps(m, save);
      assert Advances(w, SaveAll(m, save));
      if save.Saved? {
        ChosenKeeps(SaveAll(m, save), ds);
      }
  }

  lemma AcceptKeeps(w: World, ds: Desired, bound: bool, mapping: Save, intent: Save)
    requires Inv(w)
    ensures Inv(Accept(w, ds, bound, mapping, intent)) && Advances(w, Accept(w, ds, bound, mapping, intent))
  {
    if w.current.None? && Admits(w.server, Boundary(w.mem), ds) {
      MappedKeeps(w, ds, mapping);
      if MappingDone(w, ds, mapping) {
        RememberedKeeps(Mapped(w, ds, mapping), ds, bound, intent);
      }
    }
  }

  lemma ConcludeKeeps(w: World, success: bool, save: Save)
    requires Inv(w)
    ensures Inv(Conclude(w, success, save)) && Advances(w, Conclude(w, success, save))
  {
    if w.current.Some? {
      var ds := w.current.value;
      var s := if success then w.mem.(applied := Mark(ds.revision, ds.hash)) else w.mem;
      MovedKeeps(w.(current := None), s);
      SaveAllKeeps(w.(mem := s, current := None), save);
    }
  }

  lemma StepKeeps(w: World, e: Event)
    requires Inv(w)
    ensures Inv(Step(w, e)) && Advances(w, Step(w, e))
  {
    match e
    case DoAccept(ds, bound, mapping, intent) => AcceptKeeps(w, ds, bound, mapping, intent);
    case DoConclude(success, save) => ConcludeKeeps(w, success, save);
    case DoMieru(save) =>
      var v := w.(mem := w.mem.(versions := w.mem.versions.(mieru := 1)));
      assert Inv(v);
      SaveAllKeeps(v, save);
    case DoSave(save) => SaveAllKeeps(w, save);
    case DoRestart => SaveAllKeeps(w, DiedBefore);
  }

  lemma {:induction false} RunKeeps(w: World, events: seq<Event>)
    requires Inv(w)
    ensures Inv(Run(w, events))
  {
    if events != [] {
      RunKeeps(w, events[..|events| - 1]);
      StepKeeps(Run(w, events[..|events| - 1]), events[|events| - 1]);
    }
  }

  lemma AtMostThrough(a: Mark, b: Mark, c: Mark)
    requires AtMost(a, b) && AtMost(b, c)
    ensures AtMost(a, c)
  {
  }

  lemma NoOlderThrough(a: Versions, b: Versions, c: Versions)
    requires NoOlder(a, b) && NoOlder(b, c)
    ensures NoOlder(a, c)
  {
  }

  lemma AdvancesThrough(u: World, v: World, w: World)
    requires Advances(u, v) && Advances(v, w)
    ensures Advances(u, w)
  {
    AtMostThrough(Boundary(u.disk), Boundary(v.disk), Boundary(w.disk));
    NoOlderThrough(u.disk.versions, v.disk.versions, w.disk.versions);
  }

  lemma RunStep(w: World, events: seq<Event>, k: nat)
    requires Inv(w) && k < |events|
    ensures Advances(Run(w, events[..k]), Run(w, events[..k + 1]))
  {
    RunKeeps(w, events[..k]);
    assert events[..k + 1][..k] == events[..k];
    StepKeeps(Run(w, events[..k]), events[k]);
  }

  /** From after `i` events to after `j` the file only moved forward. */
  ghost predicate AdvancesFrom(w: World, events: seq<Event>, i: nat, j: nat)
    requires i <= |events| && j <= |events|
  {
    Advances(Run(w, events[..i]), Run(w, events[..j]))
  }

  lemma {:induction false} RunAdvances(w: World, events: seq<Event>, i: nat, j: nat)
    requires Inv(w) && i <= j <= |events|
    ensures AdvancesFrom(w, events, i, j)
  {
    if i == j {
      StandsStill(Run(w, events[..i]));
    } else {
      RunAdvances(w, events, i, j - 1);
      RunStep(w, events, j - 1);
      AdvancesThrough(Run(w, events[..i]), Run(w, events[..j - 1]), Run(w, events[..j]));
    }
  }

  lemma StandsStill(w: World)
    ensures Advances(w, w)
  {
  }

  /** The file's boundary now binds memory then. */
  lemma BoundaryBinds(w: World, events: seq<Event>, i: nat, j: nat)
    requires Inv(w) && i <= j <= |events|
    ensures AtMost(Boundary(Run(w, events[..i]).disk), Boundary(Run(w, events[..j]).mem))
    ensures NoOlder(Run(w, events[..i]).disk.versions, Run(w, events[..j]).mem.versions)
  {
    RunAdvances(w, events, i, j);
    RunKeeps(w, events[..j]);
    var u, v := Run(w, events[..i]), Run(w, events[..j]);
    AtMostThrough(Boundary(u.disk), Boundary(v.disk), Boundary(v.mem));
    NoOlderThrough(u.disk.versions, v.disk.versions, v.mem.versions);
  }

  /** What passes the gate is not older than anything its boundary covers. */
  lemma GateHolds(server: int, kept: State, s: State, ds: Desired)
    requires Consistent(kept) && Settled(s) && AtMost(Boundary(kept), Boundary(s)) && Admits(server, Boundary(s), ds)
    ensures forall m | m in {kept.desired, Boundary(kept)} ::
      m.revision > 0 ==> ds.revision > m.revision || (ds.revision == m.revision && ds.hash == m.hash)
  {
  }

  /**
   In every run from any loadable state file: after a network-bound configuration was
   in the file, everything the gate lets through is newer or has the same digest.
   */
  lemma NothingOlderAccepted(server: int, file: State, events: seq<Event>, i: nat, j: nat, ds: Desired)
    requires Load(file).Some? && i <= j <= |events|
    requires file.applied.revision >= 0 && (file.applied.revision > 0 ==> file.applied.hash != "")
    requires file.applied.revision == file.desired.revision > 0 ==> file.applied == file.desired
    requires var s := Run(Started(server, file), events[..j]).mem; Admits(server, Boundary(s), ds)
    ensures var kept := Run(Started(server, file), events[..i]).disk.desired;
            kept.revision > 0 ==> ds.revision > kept.revision || (ds.revision == kept.revision && ds.hash == kept.hash)
    ensures var kept := Boundary(Run(Started(server, file), events[..i]).disk);
            kept.revision > 0 ==> ds.revision > kept.revision || (ds.revision == kept.revision && ds.hash == kept.hash)
  {
    var w := Started(server, file);
    assert Inv(w);
    RunKeeps(w, events[..i]);
    RunKeeps(w, events[..j]);
    BoundaryBinds(w, events, i, j);
    GateHolds(server, Run(w, events[..i]).disk, Run(w, events[..j]).mem, ds);
  }

  /**
   In every run the remembered versions in the file never decrease, memory never has
   an older version than the file, and the file can always be loaded again.
   */
  lemma VersionsNeverDecrease(server: int, file: State, events: seq<Event>, i: nat, j: nat)
    requires Load(file).Some? && i <= j <= |events|
    requires file.applied.revision >= 0 && (file.applied.revision > 0 ==> file.applied.hash != "")
    requires file.applied.revision == file.desired.revision > 0 ==> file.applied == file.desired
    ensures var v, w := Run(Started(server, file), events[..i]), Run(Started(server, file), events[..j]);
            var a, b := v.disk.versions, w.disk.versions;
            && a.binding <= b.binding && a.egress <= b.egress && a.wireguard <= b.wireguard && a.ssh <= b.ssh
            && a.forward <= b.forward && a.mita <= b.mita && a.mapping <= b.mapping && a.listen <= b.listen && a.udp <= b.udp
            && a.transport <= b.transport && a.dns <= b.dns && a.restricted <= b.restricted && a.mieru <= b.mieru
            && NoOlder(v.disk.versions, w.mem.versions)
            && Load(w.disk).Some? && Load(w.mem) == Some(w.mem)
  {
    var w := Started(server, file);
    assert Inv(w);
    RunAdvances(w, events, i, j);
    BoundaryBinds(w, events, i, j);
    RunKeeps(w, events[..j]);
  }

  /** A configuration without the network contract is refused once a network-bound one was remembered. */
  lemma NoFallback(w: World, ds: Desired, bound: bool, mapping: Save, intent: Save)
    requires Inv(w) && w.mem.desired.revision > 0 && ds.declared.binding == 0 && w.current.None?
    ensures Accept(w, ds, bound, mapping, intent).current.None?
  {
    RequiredGrows(Mapped(w, ds, mapping).mem, ds, bound);
  }

  // ---------------------------------------------------------------- the agent

  class Agent {
    const server: int
    var state: State
    var file: State
    var current: Option<Desired>

    ghost function Now(): World
      reads this
    {
      World(server, state, file, current)
    }

    constructor (server: int, file: State)
      ensures Now() == Started(server, file)
    {
      this.server, this.file, state, current := server, file, Load(file).GetOr(file), None;
    }

    method Persist(save: Save) returns (ok: bool)
      modifies this
      ensures Now() == SaveAll(old(Now()), save) && (ok <==> save.Saved?)
    {
      file := File(state, file, save);
      if save.Died() {
        state, current := Load(file).GetOr(file), None;
      }
      ok := save.Saved?;
    }

    method RememberNATIntent(ds: Desired, save: Save) returns (ok: bool)
      modifies this
      ensures Now() == Mapped(old(Now()), ds, save) && (ok <==> MappingDone(old(Now()), ds, save))
    {
      ok := true;
      if ds.mapped && state.versions.mapping < MAPPING {
        state := state.(versions := state.versions.(mapping := MAPPING));
        ok := Persist(save);
      }
    }

    /** The changes to memory, in the order the source makes them. */
    method ChangeIntent(ds: Desired, bound: bool) returns (verdict: Verdict)
      modifies this
      ensures var (s, v) := Intent(old(state), ds, bound);
              verdict == v && Now() == old(Now()).(mem := s)
    {
      var required := RequiredVersions(state, ds, bound);
      if !Declares(ds.declared, required) {
        return Refused;
      }
      var versions := state.versions.(mita := ds.declared.mita);
      if UsesListen(ds.nodes) {
        versions := versions.(listen := 1);
      }
      var noted, ok := NoteForwards(versions, ds.forwards, ds.declared.udp);
      state := state.(versions := noted);
      if !ok {
        return Refused;
      }
      if ds.declared.binding == 0 {
        return if required.mita > 0 then MustSave else Quiet;
      }
      state := Accepted(state, noted, ds);
      return MustSave;
    }

    method RememberNetworkIntent(ds: Desired, bound: bool, save: Save)
      modifies this
      ensures Now() == Remembered(old(Now()), ds, bound, save)
    {
      ghost var w := Now();
      var verdict := ChangeIntent(ds, bound);
      if verdict.MustSave? {
        var ok := Persist(save);
        if ok {
          current := Some(ds);
        }
      } else if verdict.Quiet? {
        current := Some(ds);
      }
      assert Now() == Remembered(w, ds, bound, save);
    }

    method ConvergeDesired(ds: Desired, bound: bool, mapping: Save, intent: Save)
      modifies this
      ensures Now() == Accept(old(Now()), ds, bound, mapping, intent)
    {
      if current.Some? || !Admits(server, Boundary(state), ds) {
        return;
      }
      ghost var w := Now();
      var ok := RememberNATIntent(ds, mapping);
      if ok {
        RememberNetworkIntent(ds, bound, intent);
      }
      assert Now() == Accept(w, ds, bound, mapping, intent);
    }

    method RecordResult(success: bool, save: Save)
      modifies this
      ensures Now() == Conclude(old(Now()), success, save)
    {
      if current.None? {
        return;
      }
      if success {
        state := state.(applied := Mark(current.value.revision, current.value.hash));
      }
      current := None;
      var ok := Persist(save);
    }
  }
}
