/**
 The shared sing-box configuration of internal/core: nodes and fixed forwards of
 one process become inbounds, outbounds, resolvers and one ordered rule list. The
 rule list gets a first-match meaning here, and a resource is shown to be served
 by its own rules only.
 */
module Routing {

  import opened Durable

  datatype Kind = Node | Forward

  datatype Resource = Resource(kind: Kind, id: int)

  const NODE_MARK: nat := 0x4300_0000
  const FORWARD_MARK: nat := 0x4500_0000
  const MAX_MARKED: nat := 0xFF_FFFF

  /** The accounting mark; identities outside 24 bits have none. */
  function Mark(r: Resource): Option<nat> {
    if r.id <= 0 || r.id > MAX_MARKED then None
    else Some((if r.kind.Node? then NODE_MARK else FORWARD_MARK) + r.id) // prefix and ID share no bit
  }

  lemma MarkUnique(r: Resource, s: Resource)
    requires Mark(r).Some? && Mark(r) == Mark(s)
    ensures r == s
  {
  }

  /** Below its prefix of eight bits a mark carries the identity, and every identity of 24 bits has one. */
  lemma MarkTells(r: Resource, m: nat)
    ensures Mark(r) == Some(m) <==>
      1 <= r.id <= 0xFF_FFFF && m % 0x100_0000 == r.id && m / 0x100_0000 == (if r.kind == Node then 0x43 else 0x45)
  {
  }

  function Digit(d: nat): char
    requires d < 10
  {
    "0123456789"[d]
  }

  function Decimal(n: nat): (s: string)
    ensures s != []
  {
    if n < 10 then [Digit(n)] else Decimal(n / 10) + [Digit(n % 10)]
  }

  lemma {:induction false} DecimalUnique(m: nat, n: nat)
    requires Decimal(m) == Decimal(n)
    ensures m == n
  {
    var s := Decimal(m);
    assert s[|s| - 1] == Digit(m % 10) && s[|s| - 1] == Digit(n % 10);
    assert m >= 10 ==> s[..|s| - 1] == Decimal(m / 10);
    assert n >= 10 ==> s[..|s| - 1] == Decimal(n / 10);
    if m >= 10 && n >= 10 {
      DecimalUnique(m / 10, n / 10);
    }
  }

  function Tag(r: Resource): string
    requires Mark(r).Some?
  {
    (if r.kind.Node? then "node-" else "forward-") + Decimal(r.id)
  }

  function OutTag(r: Resource): string
    requires Mark(r).Some?
  {
    Tag(r) + "-direct"
  }

  function DnsTag(r: Resource): string
    requires Mark(r).Some?
  {
    Tag(r) + "-dns"
  }

  /** A node and a forward with the same number still have different tags. */
  lemma TagUnique(r: Resource, s: Resource)
    requires Mark(r).Some? && Mark(s).Some? && Tag(r) == Tag(s)
    ensures r == s
  {
    assert (Tag(r)[0] == 'n' <==> r.kind.Node?) && (Tag(s)[0] == 'n' <==> s.kind.Node?);
    var k := if r.kind.Node? then 5 else 8;
    assert Tag(r)[k..] == Decimal(r.id) && Tag(s)[k..] == Decimal(s.id);
    DecimalUnique(r.id, s.id);
  }

  lemma OutTagUnique(r: Resource, s: Resource)
    requires Mark(r).Some? && Mark(s).Some? && OutTag(r) == OutTag(s)
    ensures r == s
  {
    assert Tag(r) == OutTag(r)[..|OutTag(r)| - 7] && Tag(s) == OutTag(s)[..|OutTag(s)| - 7];
    TagUnique(r, s);
  }

  // ---------------------------------------------------------------- rules

  datatype Condition = Always | IpIsPrivate | IpVersion(v: int)

  datatype Action = Reject | Resolve(server: string) | RouteTo(outbound: string)

  datatype Rule = Rule(inbounds: seq<string>, cond: Condition, action: Action)

  datatype Outbound = Outbound(tag: string, mark: nat)

  datatype Config = Config(inbounds: seq<string>, outbounds: seq<Outbound>, resolvers: seq<Outbound>, rules: seq<Rule>)

  datatype Address = Address(text: string, private: bool)

  /** Where a client wants to go: an address, or a name still to be resolved. */
  datatype Destination = Literal(address: Address) | Name(host: string)

  /** What the rules cannot see: answers of a resolver, and the address family test. */
  datatype World = World(answers: (string, string) -> Option<seq<Address>>, version: (seq<Address>, int) -> bool)

  datatype Outcome = Rejected | Routed(outbound: string, addresses: seq<Address>) | Unmatched

  predicate Private(addresses: seq<Address>) {
    exists a :: a in addresses && a.private
  }

  predicate Matches(rule: Rule, tag: string, addresses: seq<Address>, w: World) {
    && tag in rule.inbounds
    && match rule.cond
       case Always => true
       case IpIsPrivate => Private(addresses)
       case IpVersion(v) => w.version(addresses, v)
  }

  /** Rules top-down: the first final one decides; resolving only makes the addresses of a name known. */
  function Evaluate(rules: seq<Rule>, tag: string, dest: Destination, known: seq<Address>, w: World): Outcome {
    if rules == [] then Unmatched
    else if !Matches(rules[0], tag, known, w) then Evaluate(rules[1..], tag, dest, known, w)
    else
      match rules[0].action
      case Reject => Rejected
      case RouteTo(out) => Routed(out, known)
      case Resolve(server) =>
        if dest.Literal? then Evaluate(rules[1..], tag, dest, known, w)
        else
          match w.answers(server, dest.host)
          case None => Rejected
          case Some(found) => Evaluate(rules[1..], tag, dest, found, w)
  }

  /** A connection starts with its literal address, or with none. */
  function Serve(rules: seq<Rule>, tag: string, dest: Destination, w: World): Outcome {
    Evaluate(rules, tag, dest, if dest.Literal? then [dest.address] else [], w)
  }

  lemma {:induction false} SkipUnrelated(a: seq<Rule>, b: seq<Rule>, tag: string, dest: Destination, known: seq<Address>, w: World)
    requires forall i :: 0 <= i < |a| ==> tag !in a[i].inbounds
    ensures Evaluate(a + b, tag, dest, known, w) == Evaluate(b, tag, dest, known, w)
  {
    if a == [] {
      assert a + b == b;
    } else {
      assert (a + b)[1..] == a[1..] + b;
      SkipUnrelated(a[1..], b, tag, dest, known, w);
    }
  }

  /** Rules that end in an unconditional route leave nothing to those behind. */
  lemma {:induction false} Decided(a: seq<Rule>, b: seq<Rule>, tag: string, dest: Destination, known: seq<Address>, w: World)
    requires a != [] && tag in a[|a| - 1].inbounds && a[|a| - 1].cond.Always? && a[|a| - 1].action.RouteTo?
    ensures Evaluate(a + b, tag, dest, known, w) == Evaluate(a, tag, dest, known, w)
  {
    assert (a + b)[0] == a[0] && (a + b)[1..] == a[1..] + b;
    if |a| > 1 {
      var more := if Matches(a[0], tag, known, w) && a[0].action.Resolve? && dest.Name? && w.answers(a[0].action.server, dest.host).Some?
        then w.answers(a[0].action.server, dest.host).value else known;
      Decided(a[1..], b, tag, dest, more, w);
    }
  }

  // ---------------------------------------------------------------- compiler

  datatype Binding = Unbound | Direct(family: string)

  datatype NodeSpec = NodeSpec(id: int, port: int, allowPrivate: bool, binding: Binding)

  datatype ForwardSpec = ForwardSpec(id: int, port: int, blocked: bool, retired: bool, udpSessions: nat)

  function NodeResource(n: NodeSpec): Resource { Resource(Node, n.id) }

  function ForwardResource(f: ForwardSpec): Resource { Resource(Forward, f.id) }

  predicate Marked(n: NodeSpec) { Mark(NodeResource(n)).Some? }

  predicate AllMarked(nodes: seq<NodeSpec>) {
    forall i :: 0 <= i < |nodes| ==> Marked(nodes[i])
  }

  function FamilyRules(tag: string, family: string): seq<Rule> {
    if family == "ipv4" then [Rule([tag], IpVersion(6), Reject)]
    else if family == "ipv6" then [Rule([tag], IpVersion(4), Reject)]
    else []
  }

  /** Resolution first, then the checks on what was resolved, then the route. */
  function NodeRules(n: NodeSpec): (rules: seq<Rule>)
    requires Marked(n)
    ensures rules != []
  {
    var r := NodeResource(n);
    var tag := Tag(r);
    (if n.binding.Direct? then
       [Rule([tag], Always, Resolve(DnsTag(r)))] + FamilyRules(tag, n.binding.family)
       + (if n.allowPrivate then [] else [Rule([tag], IpIsPrivate, Reject)])
     else [])
    + [Rule([tag], Always, RouteTo(OutTag(r)))]
  }

  function ForwardRules(f: ForwardSpec): seq<Rule>
    requires Mark(ForwardResource(f)).Some?
  {
    [Rule([Tag(ForwardResource(f))], Always, RouteTo(OutTag(ForwardResource(f))))]
  }

  /** Tags that may never reach a private literal. */
  function Denied(nodes: seq<NodeSpec>): seq<string>
    requires AllMarked(nodes)
  {
    if nodes == [] then []
    else
      var n := |nodes| - 1;
      Denied(nodes[..n]) + (if nodes[n].allowPrivate then [] else [Tag(NodeResource(nodes[n]))])
  }

  function DeniedRules(nodes: seq<NodeSpec>): seq<Rule>
    requires AllMarked(nodes)
  {
    if Denied(nodes) == [] then [] else [Rule(Denied(nodes), IpIsPrivate, Reject)]
  }

  function NodeOutbound(n: NodeSpec): Outbound
    requires Marked(n)
  {
    Outbound(OutTag(NodeResource(n)), Mark(NodeResource(n)).value)
  }

  function ForwardOutbound(f: ForwardSpec): Outbound
    requires Mark(ForwardResource(f)).Some?
  {
    Outbound(OutTag(ForwardResource(f)), Mark(ForwardResource(f)).value)
  }

  function NodeResolvers(n: NodeSpec): seq<Outbound>
    requires Marked(n)
  {
    if n.binding.Direct? then [Outbound(DnsTag(NodeResource(n)), Mark(NodeResource(n)).value)] else []
  }

  /** One node added to a configuration. */
  function AddNode(c: Config, n: NodeSpec): Config
    requires Marked(n)
  {
    Config(c.inbounds + [Tag(NodeResource(n))], c.outbounds + [NodeOutbound(n)],
           c.resolvers + NodeResolvers(n), c.rules + NodeRules(n))
  }

  function AddForward(c: Config, f: ForwardSpec): Config
    requires Mark(ForwardResource(f)).Some?
  {
    Config(c.inbounds + [Tag(ForwardResource(f))], c.outbounds + [ForwardOutbound(f)], c.resolvers, c.rules + ForwardRules(f))
  }

  function WithNodes(c: Config, nodes: seq<NodeSpec>): Config
    requires AllMarked(nodes)
  {
    if nodes == [] then c
    else
      var n := |nodes| - 1;
      AddNode(WithNodes(c, nodes[..n]), nodes[n])
  }

  predicate Live(f: ForwardSpec) { !f.blocked && !f.retired }

  predicate ForwardsMarked(fs: seq<ForwardSpec>) {
    forall i :: 0 <= i < |fs| && Live(fs[i]) ==> Mark(ForwardResource(fs[i])).Some?
  }

  function WithForwards(c: Config, fs: seq<ForwardSpec>): Config
    requires ForwardsMarked(fs)
  {
    if fs == [] then c
    else
      var n := |fs| - 1;
      var before := WithForwards(c, fs[..n]);
      if Live(fs[n]) then AddForward(before, fs[n]) else before
  }

  function Compiled(nodes: seq<NodeSpec>, fs: seq<ForwardSpec>): Config
    requires AllMarked(nodes) && ForwardsMarked(fs)
  {
    WithForwards(WithNodes(Config([], [], [], DeniedRules(nodes)), nodes), fs)
  }

  // ---------------------------------------------------------------- what the compiler writes

  datatype Error = PortConflict | DuplicateForward | UdpBudget | MarkRange | TooManyForwards

  datatype Built = Ok(config: Config) | Err(error: Error)

  const ACTIVE_FORWARDS: nat := 128
  const UDP_SESSIONS: nat := 8192

  /** The first pass: nodes without permission to reach private addresses. */
  method CollectDenied(nodes: seq<NodeSpec>) returns (r: Option<seq<string>>)
    ensures r == if AllMarked(nodes) then Some(Denied(nodes)) else None
  {
    var denied: seq<string> := [];
    for i := 0 to |nodes|
      invariant AllMarked(nodes[..i]) && denied == Denied(nodes[..i])
    {
      assert nodes[..i + 1][..i] == nodes[..i];
      if Mark(NodeResource(nodes[i])).None? {
        return None;
      }
      if !nodes[i].allowPrivate {
        denied := denied + [Tag(NodeResource(nodes[i]))];
      }
    }
    assert nodes[..|nodes|] == nodes;
    return Some(denied);
  }

  /** BuildConfig: one pass over the nodes for the shared rejection, one for everything else. */
  method BuildConfig(nodes: seq<NodeSpec>) returns (r: Built)
    ensures r == if AllMarked(nodes) then Ok(WithNodes(Config([], [], [], DeniedRules(nodes)), nodes)) else Err(MarkRange)
  {
    var denied := CollectDenied(nodes);
    if denied.None? {
      return Err(MarkRange);
    }
    var c := Config([], [], [], []);
    if denied.value != [] {
      c := c.(rules := [Rule(denied.value, IpIsPrivate, Reject)]);
    }
    ghost var base := c;
    for i := 0 to |nodes|
      invariant c == WithNodes(base, nodes[..i])
    {
      assert nodes[..i + 1][..i] == nodes[..i];
      c := AddNode(c, nodes[i]);
    }
    assert nodes[..|nodes|] == nodes;
    return Ok(c);
  }

  ghost predicate NodePortsDistinct(nodes: seq<NodeSpec>) {
    forall i, j :: 0 <= i < j < |nodes| ==> nodes[i].port != nodes[j].port
  }

  function UdpTotal(fs: seq<ForwardSpec>): nat {
    if fs == [] then 0
    else UdpTotal(fs[..|fs| - 1]) + (if Live(fs[|fs| - 1]) then fs[|fs| - 1].udpSessions else 0)
  }

  lemma {:induction false} UdpTotalGrows(fs: seq<ForwardSpec>, k: nat)
    requires k <= |fs|
    ensures UdpTotal(fs[..k]) <= UdpTotal(fs)
  {
    if k < |fs| {
      assert fs[..|fs| - 1][..k] == fs[..k];
      UdpTotalGrows(fs[..|fs| - 1], k);
    } else {
      assert fs[..k] == fs;
    }
  }

  /** What the source demands of the forwards before it compiles them. */
  ghost predicate ForwardsAcceptable(fs: seq<ForwardSpec>, ports: set<int>) {
    && (forall i, j :: 0 <= i < j < |fs| ==> fs[i].id != fs[j].id)
    && (forall i :: 0 <= i < |fs| && Live(fs[i]) ==> fs[i].port !in ports)
    && (forall i, j :: 0 <= i < j < |fs| && Live(fs[i]) && Live(fs[j]) ==> fs[i].port != fs[j].port)
    && UdpTotal(fs) <= UDP_SESSIONS && ForwardsMarked(fs)
  }

  method NodePorts(nodes: seq<NodeSpec>) returns (r: Option<set<int>>)
    ensures r.Some? <==> NodePortsDistinct(nodes)
    ensures r.Some? ==> r.value == set i | 0 <= i < |nodes| :: nodes[i].port
  {
    var ports: set<int> := {};
    for i := 0 to |nodes|
      invariant ports == set k | 0 <= k < i :: nodes[k].port
      invariant NodePortsDistinct(nodes[..i])
    {
      if nodes[i].port in ports {
        return None;
      }
      ports := ports + {nodes[i].port};
    }
    return Some(ports);
  }

  /** One more forward is acceptable exactly when it is new, within the budget, on a free port and markable. */
  predicate Fits(f: ForwardSpec, ids: set<int>, ports: set<int>, sessions: nat) {
    f.id !in ids && (Live(f) ==> sessions + f.udpSessions <= UDP_SESSIONS && f.port !in ports && Mark(ForwardResource(f)).Some?)
  }

  lemma AcceptableStep(fs: seq<ForwardSpec>, i: nat, nodePorts: set<int>)
    requires i < |fs| && ForwardsAcceptable(fs[..i], nodePorts)
    ensures ForwardsAcceptable(fs[..i + 1], nodePorts) <==>
      Fits(fs[i], set k | 0 <= k < i :: fs[k].id, nodePorts + set k | 0 <= k < i && Live(fs[k]) :: fs[k].port, UdpTotal(fs[..i]))
  {
    var all := fs[..i + 1];
    assert all[..i] == fs[..i] && all[i] == fs[i];
    if ForwardsAcceptable(all, nodePorts) {
      forall k | 0 <= k < i
        ensures fs[k].id != fs[i].id && (Live(fs[k]) && Live(fs[i]) ==> fs[k].port != fs[i].port)
      {
        assert all[k] == fs[k];
      }
      assert ForwardsMarked(all);
    } else {
      assert forall k :: 0 <= k < i ==> all[k] == fs[..i][k];
    }
  }

  lemma AcceptablePrefix(fs: seq<ForwardSpec>, k: nat, nodePorts: set<int>)
    requires k <= |fs| && ForwardsAcceptable(fs, nodePorts)
    ensures ForwardsAcceptable(fs[..k], nodePorts)
  {
    UdpTotalGrows(fs, k);
  }

  /** Why a forward that does not fit is refused, in the order of the checks. */
  method CheckForward(f: ForwardSpec, ids: set<int>, ports: set<int>, sessions: nat) returns (e: Option<Error>)
    ensures e.None? <==> Fits(f, ids, ports, sessions)
  {
    if f.id in ids {
      return Some(DuplicateForward);
    }
    if f.blocked || f.retired {
      return None;
    }
    if sessions + f.udpSessions > UDP_SESSIONS {
      return Some(UdpBudget);
    }
    if f.port in ports {
      return Some(PortConflict);
    }
    if Mark(ForwardResource(f)).None? {
      return Some(MarkRange);
    }
    return None;
  }

  method CheckForwards(fs: seq<ForwardSpec>, nodePorts: set<int>) returns (e: Option<Error>)
    ensures e.None? <==> ForwardsAcceptable(fs, nodePorts)
  {
    var ports, ids: set<int>, sessions: nat := nodePorts, {}, 0;
    for i := 0 to |fs|
      invariant ids == set k | 0 <= k < i :: fs[k].id
      invariant ports == nodePorts + set k | 0 <= k < i && Live(fs[k]) :: fs[k].port
      invariant sessions == UdpTotal(fs[..i])
      invariant ForwardsAcceptable(fs[..i], nodePorts)
    {
      AcceptableStep(fs, i, nodePorts);
      e := CheckForward(fs[i], ids, ports, sessions);
      if e.Some? {
        if ForwardsAcceptable(fs, nodePorts) {
          AcceptablePrefix(fs, i + 1, nodePorts);
        }
        return;
      }
      assert fs[..i + 1][..i] == fs[..i];
      ids := ids + {fs[i].id};
      if Live(fs[i]) {
        sessions, ports := sessions + fs[i].udpSessions, ports + {fs[i].port};
      }
    }
    assert fs[..|fs|] == fs;
    return None;
  }

  /** BuildResourceConfig: the checks before the first forward is compiled, then nodes, then forwards. */
  method BuildResourceConfig(nodes: seq<NodeSpec>, fs: seq<ForwardSpec>) returns (r: Built)
    ensures r.Ok? <==>
      && |fs| <= ACTIVE_FORWARDS && NodePortsDistinct(nodes) && AllMarked(nodes)
      && ForwardsAcceptable(fs, set i | 0 <= i < |nodes| :: nodes[i].port)
    ensures r.Ok? ==> r.config == Compiled(nodes, fs)
  {
    if |fs| > ACTIVE_FORWARDS {
      return Err(TooManyForwards);
    }
    var ports := NodePorts(nodes);
    if ports.None? {
      return Err(PortConflict);
    }
    var refused := CheckForwards(fs, ports.value);
    if refused.Some? {
      return Err(refused.value);
    }
    var base := BuildConfig(nodes);
    if base.Err? {
      return base;
    }
    var c := base.config;
    for i := 0 to |fs|
      invariant c == WithForwards(base.config, fs[..i])
    {
      assert fs[..i + 1][..i] == fs[..i];
      if !fs[i].blocked && !fs[i].retired {
        c := AddForward(c, fs[i]);
      }
    }
    assert fs[..|fs|] == fs;
    return Ok(c);
  }

  // ---------------------------------------------------------------- non-interference

  /** The rules of all nodes after the shared rejection, in order. */
  function NodeTail(nodes: seq<NodeSpec>): seq<Rule>
    requires AllMarked(nodes)
  {
    if nodes == [] then [] else NodeTail(nodes[..|nodes| - 1]) + NodeRules(nodes[|nodes| - 1])
  }

  function ForwardTail(fs: seq<ForwardSpec>): seq<Rule>
    requires ForwardsMarked(fs)
  {
    if fs == [] then []
    else ForwardTail(fs[..|fs| - 1]) + (if Live(fs[|fs| - 1]) then ForwardRules(fs[|fs| - 1]) else [])
  }

  lemma {:induction false} NodesRules(c: Config, nodes: seq<NodeSpec>)
    requires AllMarked(nodes)
    ensures WithNodes(c, nodes).rules == c.rules + NodeTail(nodes)
  {
    if nodes == [] {
      assert c.rules + [] == c.rules;
    } else {
      NodesRules(c, nodes[..|nodes| - 1]);
    }
  }

  lemma {:induction false} ForwardsRules(c: Config, fs: seq<ForwardSpec>)
    requires ForwardsMarked(fs)
    ensures WithForwards(c, fs).rules == c.rules + ForwardTail(fs)
  {
    if fs == [] {
      assert c.rules + [] == c.rules;
    } else {
      ForwardsRules(c, fs[..|fs| - 1]);
    }
  }

  lemma CompiledRules(nodes: seq<NodeSpec>, fs: seq<ForwardSpec>)
    requires AllMarked(nodes) && ForwardsMarked(fs)
    ensures Compiled(nodes, fs).rules == DeniedRules(nodes) + NodeTail(nodes) + ForwardTail(fs)
  {
    NodesRules(Config([], [], [], DeniedRules(nodes)), nodes);
    ForwardsRules(WithNodes(Config([], [], [], DeniedRules(nodes)), nodes), fs);
  }

  lemma NodeRulesOwn(n: NodeSpec, r: Resource)
    requires Marked(n) && Mark(r).Some? && r != NodeResource(n)
    ensures forall i :: 0 <= i < |NodeRules(n)| ==> Tag(r) !in NodeRules(n)[i].inbounds
  {
    if Tag(NodeResource(n)) == Tag(r) {
      TagUnique(NodeResource(n), r);
    }
  }

  lemma {:induction false} NodeTailOwn(nodes: seq<NodeSpec>, r: Resource)
    requires AllMarked(nodes) && Mark(r).Some? && forall i :: 0 <= i < |nodes| ==> NodeResource(nodes[i]) != r
    ensures forall i :: 0 <= i < |NodeTail(nodes)| ==> Tag(r) !in NodeTail(nodes)[i].inbounds
  {
    if nodes != [] {
      NodeTailOwn(nodes[..|nodes| - 1], r);
      NodeRulesOwn(nodes[|nodes| - 1], r);
    }
  }

  lemma {:induction false} ForwardTailOwn(fs: seq<ForwardSpec>, r: Resource)
    requires ForwardsMarked(fs) && Mark(r).Some? && forall i :: 0 <= i < |fs| && Live(fs[i]) ==> ForwardResource(fs[i]) != r
    ensures forall i :: 0 <= i < |ForwardTail(fs)| ==> Tag(r) !in ForwardTail(fs)[i].inbounds
  {
    if fs != [] {
      ForwardTailOwn(fs[..|fs| - 1], r);
      var f := fs[|fs| - 1];
      if Live(f) && Tag(ForwardResource(f)) == Tag(r) {
        TagUnique(ForwardResource(f), r);
      }
    }
  }

  /** Resources that are no node, or a permitted one, escape the shared rejection. */
  lemma {:induction false} NotDenied(nodes: seq<NodeSpec>, r: Resource)
    requires AllMarked(nodes) && Mark(r).Some?
    requires forall i :: 0 <= i < |nodes| && NodeResource(nodes[i]) == r ==> nodes[i].allowPrivate
    ensures Tag(r) !in Denied(nodes)
  {
    if nodes != [] {
      var n := |nodes| - 1;
      NotDenied(nodes[..n], r);
      if Tag(NodeResource(nodes[n])) == Tag(r) {
        TagUnique(NodeResource(nodes[n]), r);
      }
    }
  }

  lemma {:induction false} IsDenied(nodes: seq<NodeSpec>, k: nat)
    requires AllMarked(nodes) && k < |nodes| && !nodes[k].allowPrivate
    ensures Tag(NodeResource(nodes[k])) in Denied(nodes)
  {
    var n := |nodes| - 1;
    if k < n {
      IsDenied(nodes[..n], k);
    }
  }

  lemma {:induction false} NodeTailSplit(nodes: seq<NodeSpec>, k: nat) returns (rest: seq<Rule>)
    requires AllMarked(nodes) && k < |nodes|
    ensures NodeTail(nodes) == NodeTail(nodes[..k]) + NodeRules(nodes[k]) + rest
  {
    var n := |nodes| - 1;
    if k == n {
      rest := [];
    } else {
      assert nodes[..n][..k] == nodes[..k];
      rest := NodeTailSplit(nodes[..n], k);
      rest := rest + NodeRules(nodes[n]);
    }
  }

  lemma {:induction false} ForwardTailSplit(fs: seq<ForwardSpec>, k: nat) returns (rest: seq<Rule>)
    requires ForwardsMarked(fs) && k < |fs| && Live(fs[k])
    ensures ForwardTail(fs) == ForwardTail(fs[..k]) + ForwardRules(fs[k]) + rest
  {
    var n := |fs| - 1;
    if k == n {
      rest := [];
    } else {
      assert fs[..n][..k] == fs[..k];
      rest := ForwardTailSplit(fs[..n], k);
      rest := rest + (if Live(fs[n]) then ForwardRules(fs[n]) else []);
    }
  }

  /** What a node's own rules do, the shared rejection of private literals included. */
  function OwnNode(n: NodeSpec, dest: Destination, w: World): Outcome
    requires Marked(n)
  {
    if !n.allowPrivate && dest.Literal? && dest.address.private then Rejected
    else Serve(NodeRules(n), Tag(NodeResource(n)), dest, w)
  }

  /** The compiled rules seen from one node: shared rejection, strangers, own rules, strangers. */
  lemma AroundNode(nodes: seq<NodeSpec>, fs: seq<ForwardSpec>, k: nat) returns (later: seq<Rule>)
    requires AllMarked(nodes) && ForwardsMarked(fs) && k < |nodes|
    ensures Compiled(nodes, fs).rules == DeniedRules(nodes) + (NodeTail(nodes[..k]) + (NodeRules(nodes[k]) + later))
  {
    CompiledRules(nodes, fs);
    var rest := NodeTailSplit(nodes, k);
    later := rest + ForwardTail(fs);
    Regroup(DeniedRules(nodes), NodeTail(nodes[..k]), NodeRules(nodes[k]), rest, ForwardTail(fs));
  }

  lemma Regroup(a: seq<Rule>, b: seq<Rule>, c: seq<Rule>, d: seq<Rule>, e: seq<Rule>)
    ensures a + (b + c + d) + e == a + (b + (c + (d + e)))
  {
  }

  /** Strangers before and after a node's rules change nothing. */
  lemma OwnRulesDecide(nodes: seq<NodeSpec>, k: nat, later: seq<Rule>, dest: Destination, w: World)
    requires AllMarked(nodes) && k < |nodes|
    requires forall i :: 0 <= i < k ==> nodes[i].id != nodes[k].id
    ensures Serve(NodeTail(nodes[..k]) + (NodeRules(nodes[k]) + later), Tag(NodeResource(nodes[k])), dest, w) ==
            Serve(NodeRules(nodes[k]), Tag(NodeResource(nodes[k])), dest, w)
  {
    var r := NodeResource(nodes[k]);
    var known := if dest.Literal? then [dest.address] else [];
    NodeTailOwn(nodes[..k], r);
    SkipUnrelated(NodeTail(nodes[..k]), NodeRules(nodes[k]) + later, Tag(r), dest, known, w);
    Decided(NodeRules(nodes[k]), later, Tag(r), dest, known, w);
  }

  /**
   Non-interference for nodes: whatever other nodes and forwards share the process,
   a connection of one node is decided by that node's specification alone.
   */
  lemma NodeServedAlone(nodes: seq<NodeSpec>, fs: seq<ForwardSpec>, k: nat, dest: Destination, w: World)
    requires AllMarked(nodes) && ForwardsMarked(fs) && k < |nodes|
    requires forall i, j :: 0 <= i < j < |nodes| ==> nodes[i].id != nodes[j].id
    ensures Serve(Compiled(nodes, fs).rules, Tag(NodeResource(nodes[k])), dest, w) == OwnNode(nodes[k], dest, w)
  {
    var later := AroundNode(nodes, fs, k);
    OwnRulesDecide(nodes, k, later, dest, w);
    if nodes[k].allowPrivate {
      NotDenied(nodes, NodeResource(nodes[k]));
    } else {
      IsDenied(nodes, k);
    }
    DeniedFirst(nodes, NodeTail(nodes[..k]) + (NodeRules(nodes[k]) + later), nodes[k], dest, w);
  }

  /** The shared rejection applies to a node exactly when it lacks the permission. */
  lemma DeniedFirst(nodes: seq<NodeSpec>, behind: seq<Rule>, n: NodeSpec, dest: Destination, w: World)
    requires AllMarked(nodes) && Marked(n) && (Tag(NodeResource(n)) in Denied(nodes) <==> !n.allowPrivate)
    ensures Serve(DeniedRules(nodes) + behind, Tag(NodeResource(n)), dest, w) ==
            if !n.allowPrivate && dest.Literal? && dest.address.private then Rejected
            else Serve(behind, Tag(NodeResource(n)), dest, w)
  {
    var known := if dest.Literal? then [dest.address] else [];
    assert Private(known) <==> dest.Literal? && dest.address.private by {
      if dest.Literal? {
        assert dest.address in known;
      }
    }
    if Denied(nodes) == [] {
      assert DeniedRules(nodes) + behind == behind;
    } else {
      assert (DeniedRules(nodes) + behind)[1..] == behind;
    }
  }

  /** The compiled rules seen from one forward: strangers, its own rule, the rest. */
  lemma AroundForward(nodes: seq<NodeSpec>, fs: seq<ForwardSpec>, k: nat) returns (later: seq<Rule>)
    requires AllMarked(nodes) && ForwardsMarked(fs) && k < |fs| && Live(fs[k])
    ensures Compiled(nodes, fs).rules ==
      (DeniedRules(nodes) + NodeTail(nodes) + ForwardTail(fs[..k])) + (ForwardRules(fs[k]) + later)
  {
    CompiledRules(nodes, fs);
    later := ForwardTailSplit(fs, k);
    RegroupForward(DeniedRules(nodes) + NodeTail(nodes), ForwardTail(fs[..k]), ForwardRules(fs[k]), later);
  }

  lemma RegroupForward(a: seq<Rule>, b: seq<Rule>, c: seq<Rule>, d: seq<Rule>)
    ensures a + (b + c + d) == (a + b) + (c + d)
  {
  }

  /** None of the rules before a forward's own matches it. */
  lemma StrangersOfForward(nodes: seq<NodeSpec>, fs: seq<ForwardSpec>, k: nat)
    requires AllMarked(nodes) && ForwardsMarked(fs) && k < |fs| && Live(fs[k])
    requires forall i :: 0 <= i < k ==> fs[i].id != fs[k].id
    ensures var front := DeniedRules(nodes) + NodeTail(nodes) + ForwardTail(fs[..k]);
            forall i :: 0 <= i < |front| ==> Tag(ForwardResource(fs[k])) !in front[i].inbounds
  {
    var r := ForwardResource(fs[k]);
    NodeTailOwn(nodes, r);
    ForwardTailOwn(fs[..k], r);
    NotDenied(nodes, r);
  }

  /** Non-interference for forwards. */
  lemma ForwardServedAlone(nodes: seq<NodeSpec>, fs: seq<ForwardSpec>, k: nat, dest: Destination, w: World)
    requires AllMarked(nodes) && ForwardsMarked(fs) && k < |fs| && Live(fs[k])
    requires forall i, j :: 0 <= i < j < |fs| ==> fs[i].id != fs[j].id
    ensures var r := ForwardResource(fs[k]);
            Serve(Compiled(nodes, fs).rules, Tag(r), dest, w) ==
            Routed(OutTag(r), if dest.Literal? then [dest.address] else [])
  {
    var tag := Tag(ForwardResource(fs[k]));
    var known := if dest.Literal? then [dest.address] else [];
    var later := AroundForward(nodes, fs, k);
    StrangersOfForward(nodes, fs, k);
    SkipUnrelated(DeniedRules(nodes) + NodeTail(nodes) + ForwardTail(fs[..k]), ForwardRules(fs[k]) + later, tag, dest, known, w);
    Decided(ForwardRules(fs[k]), later, tag, dest, known, w);
  }

  /** The checks after resolution, then the route. */
  lemma GuardedRoute(tag: string, out: string, family: string, allow: bool, dest: Destination, found: seq<Address>, w: World)
    ensures var guard := if allow then [] else [Rule([tag], IpIsPrivate, Reject)];
            var rules := FamilyRules(tag, family) + guard + [Rule([tag], Always, RouteTo(out))];
            var o := Evaluate(rules, tag, dest, found, w);
            o == Rejected || (o == Routed(out, found) && (!allow ==> !Private(found)))
  {
    var route := [Rule([tag], Always, RouteTo(out))];
    var guard := if allow then [] else [Rule([tag], IpIsPrivate, Reject)];
    var rules := FamilyRules(tag, family) + guard + route;
    assert Evaluate(route, tag, dest, found, w) == Routed(out, found);
    assert guard != [] ==> (guard + route)[1..] == route;
    assert guard == [] ==> guard + route == route;
    if FamilyRules(tag, family) == [] {
      assert rules == guard + route;
    } else {
      assert rules[1..] == guard + route;
    }
  }

  /** What a node's own rules can end in. */
  lemma OwnNodeOutcome(n: NodeSpec, dest: Destination, w: World)
    requires Marked(n)
    ensures var o := OwnNode(n, dest, w);
            && (o == Rejected || (o.Routed? && o.outbound == OutTag(NodeResource(n))))
            && (!n.allowPrivate && o.Routed? ==> !Private(o.addresses))
  {
    var r := NodeResource(n);
    var tag, out := Tag(r), OutTag(r);
    var route := [Rule([tag], Always, RouteTo(out))];
    if n.binding.Direct? {
      var guard := if n.allowPrivate then [] else [Rule([tag], IpIsPrivate, Reject)];
      assert NodeRules(n)[0] == Rule([tag], Always, Resolve(DnsTag(r)));
      assert NodeRules(n)[1..] == FamilyRules(tag, n.binding.family) + guard + route;
      var known := if Targets(n, dest, w).Some? then Targets(n, dest, w).value else [];
      GuardedRoute(tag, out, n.binding.family, n.allowPrivate, dest, known, w);
    } else {
      var known := if dest.Literal? then [dest.address] else [];
      assert NodeRules(n) == route && Evaluate(route, tag, dest, known, w) == Routed(out, known);
    }
  }

  /** These addresses are closed to the node: one is private without permission, or they belong to the other family. */
  predicate Closed(n: NodeSpec, found: seq<Address>, w: World)
    requires n.binding.Direct?
  {
    || (!n.allowPrivate && exists a :: a in found && a.private)
    || (n.binding.family == "ipv4" && w.version(found, 6))
    || (n.binding.family == "ipv6" && w.version(found, 4))
  }

  lemma FamilyChecks(tag: string, n: NodeSpec, dest: Destination, found: seq<Address>, w: World, out: string)
    requires n.binding.Direct?
    ensures var guard := if n.allowPrivate then [] else [Rule([tag], IpIsPrivate, Reject)];
            var rules := FamilyRules(tag, n.binding.family) + guard + [Rule([tag], Always, RouteTo(out))];
            Evaluate(rules, tag, dest, found, w) == if Closed(n, found, w) then Rejected else Routed(out, found)
  {
    var route := [Rule([tag], Always, RouteTo(out))];
    var guard := if n.allowPrivate then [] else [Rule([tag], IpIsPrivate, Reject)];
    var rules := FamilyRules(tag, n.binding.family) + guard + route;
    assert Evaluate(route, tag, dest, found, w) == Routed(out, found);
    assert guard != [] ==> (guard + route)[1..] == route;
    assert guard == [] ==> guard + route == route;
    if n.binding.family == "ipv4" || n.binding.family == "ipv6" {
      assert rules[1..] == guard + route;
    } else {
      assert rules == guard + route;
    }
  }

  /**
   Exactly when a direct node's connection is routed: its addresses are known (the
   literal, or what its own resolver answers) and not closed to it.
   */
  lemma OwnDirectNode(n: NodeSpec, dest: Destination, w: World)
    requires Marked(n) && n.binding.Direct?
    ensures var found := if dest.Literal? then Some([dest.address]) else w.answers(Tag(NodeResource(n)) + "-dns", dest.host);
            OwnNode(n, dest, w) ==
              if found.None? || Closed(n, found.value, w) then Rejected
              else Routed(Tag(NodeResource(n)) + "-direct", found.value)
  {
    var r := NodeResource(n);
    var tag := Tag(r);
    var guard := if n.allowPrivate then [] else [Rule([tag], IpIsPrivate, Reject)];
    assert NodeRules(n)[0] == Rule([tag], Always, Resolve(DnsTag(r)));
    assert NodeRules(n)[1..] == FamilyRules(tag, n.binding.family) + guard + [Rule([tag], Always, RouteTo(OutTag(r)))];
    if dest.Literal? {
      assert dest.address in [dest.address];
      FamilyChecks(tag, n, dest, [dest.address], w, OutTag(r));
    } else if w.answers(DnsTag(r), dest.host).Some? {
      FamilyChecks(tag, n, dest, w.answers(DnsTag(r), dest.host).value, w, OutTag(r));
    }
  }

  lemma DirectNodeRoutedIff(nodes: seq<NodeSpec>, fs: seq<ForwardSpec>, k: nat, dest: Destination, w: World)
    requires AllMarked(nodes) && ForwardsMarked(fs) && k < |nodes| && nodes[k].binding.Direct?
    requires forall i, j :: 0 <= i < j < |nodes| ==> nodes[i].id != nodes[j].id
    ensures var n := nodes[k];
            var found := if dest.Literal? then Some([dest.address]) else w.answers(Tag(NodeResource(n)) + "-dns", dest.host);
            Serve(Compiled(nodes, fs).rules, Tag(NodeResource(n)), dest, w) ==
              if found.None? || Closed(n, found.value, w) then Rejected
              else Routed(Tag(NodeResource(n)) + "-direct", found.value)
  {
    NodeServedAlone(nodes, fs, k, dest, w);
    OwnDirectNode(nodes[k], dest, w);
  }

  /** An unbound node's connection is routed unless it goes to a private literal without permission. */
  lemma UnboundNodeRoutedIff(nodes: seq<NodeSpec>, fs: seq<ForwardSpec>, k: nat, dest: Destination, w: World)
    requires AllMarked(nodes) && ForwardsMarked(fs) && k < |nodes| && nodes[k].binding.Unbound?
    requires forall i, j :: 0 <= i < j < |nodes| ==> nodes[i].id != nodes[j].id
    ensures var n := nodes[k];
            Serve(Compiled(nodes, fs).rules, Tag(NodeResource(n)), dest, w) ==
              if dest.Literal? && dest.address.private && !n.allowPrivate then Rejected
              else Routed(Tag(NodeResource(n)) + "-direct", if dest.Literal? then [dest.address] else [])
  {
    var n := nodes[k];
    NodeServedAlone(nodes, fs, k, dest, w);
    assert NodeRules(n) == [Rule([Tag(NodeResource(n))], Always, RouteTo(OutTag(NodeResource(n))))];
  }

  // ---------------------------------------------------------------- marks

  /** The mark of the outbound a tag selects. */
  function MarkOf(outbounds: seq<Outbound>, tag: string): Option<nat> {
    if outbounds == [] then None
    else if outbounds[0].tag == tag then Some(outbounds[0].mark)
    else MarkOf(outbounds[1..], tag)
  }

  /** Each outbound belongs to a resource and carries its mark. */
  ghost predicate Owned(o: Outbound) {
    exists r :: Mark(r).Some? && o.tag == OutTag(r) && o.mark == Mark(r).value
  }

  lemma {:induction false} MarkOfOwned(outbounds: seq<Outbound>, r: Resource)
    requires Mark(r).Some? && (forall o :: o in outbounds ==> Owned(o))
    requires exists o :: o in outbounds && o.tag == OutTag(r)
    ensures MarkOf(outbounds, OutTag(r)) == Mark(r)
  {
    assert outbounds[0] in outbounds && Owned(outbounds[0]);
    if outbounds[0].tag == OutTag(r) {
      var s :| Mark(s).Some? && outbounds[0].tag == OutTag(s) && outbounds[0].mark == Mark(s).value;
      OutTagUnique(s, r);
    } else {
      MarkOfOwned(outbounds[1..], r);
    }
  }

  lemma {:induction false} NodesOutbounds(c: Config, nodes: seq<NodeSpec>)
    requires AllMarked(nodes) && (forall o :: o in c.outbounds ==> Owned(o))
    ensures forall o :: o in WithNodes(c, nodes).outbounds ==> Owned(o)
    ensures forall o :: o in c.outbounds ==> o in WithNodes(c, nodes).outbounds
    ensures forall i :: 0 <= i < |nodes| ==> NodeOutbound(nodes[i]) in WithNodes(c, nodes).outbounds
  {
    if nodes != [] {
      NodesOutbounds(c, nodes[..|nodes| - 1]);
      assert Owned(NodeOutbound(nodes[|nodes| - 1]));
    }
  }

  lemma {:induction false} ForwardsOutbounds(c: Config, fs: seq<ForwardSpec>)
    requires ForwardsMarked(fs) && (forall o :: o in c.outbounds ==> Owned(o))
    ensures forall o :: o in WithForwards(c, fs).outbounds ==> Owned(o)
    ensures forall o :: o in c.outbounds ==> o in WithForwards(c, fs).outbounds
    ensures forall i :: 0 <= i < |fs| && Live(fs[i]) ==> ForwardOutbound(fs[i]) in WithForwards(c, fs).outbounds
  {
    if fs != [] {
      var f := fs[|fs| - 1];
      ForwardsOutbounds(c, fs[..|fs| - 1]);
      if Live(f) {
        assert Owned(ForwardOutbound(f));
      }
    }
  }

  lemma CompiledOutbounds(nodes: seq<NodeSpec>, fs: seq<ForwardSpec>)
    requires AllMarked(nodes) && ForwardsMarked(fs)
    ensures forall o :: o in Compiled(nodes, fs).outbounds ==> Owned(o)
    ensures forall i :: 0 <= i < |nodes| ==> NodeOutbound(nodes[i]) in Compiled(nodes, fs).outbounds
    ensures forall i :: 0 <= i < |fs| && Live(fs[i]) ==> ForwardOutbound(fs[i]) in Compiled(nodes, fs).outbounds
  {
    var c := Config([], [], [], DeniedRules(nodes));
    NodesOutbounds(c, nodes);
    ForwardsOutbounds(WithNodes(c, nodes), fs);
  }

  /**
   Every connection of a node is rejected or leaves through an outbound that
   carries the node's own mark, even next to a forward of the same number; without
   the private permission a private literal is always rejected.
   */
  lemma NodeOwnMark(nodes: seq<NodeSpec>, fs: seq<ForwardSpec>, k: nat, dest: Destination, w: World)
    requires AllMarked(nodes) && ForwardsMarked(fs) && k < |nodes|
    requires forall i, j :: 0 <= i < j < |nodes| ==> nodes[i].id != nodes[j].id
    ensures var c := Compiled(nodes, fs);
            var o := Serve(c.rules, Tag(NodeResource(nodes[k])), dest, w);
            && (o == Rejected || (o.Routed? && MarkOf(c.outbounds, o.outbound) == Mark(NodeResource(nodes[k]))))
            && (!nodes[k].allowPrivate && dest.Literal? && dest.address.private ==> o == Rejected)
  {
    NodeServedAlone(nodes, fs, k, dest, w);
    OwnNodeOutcome(nodes[k], dest, w);
    CompiledOutbounds(nodes, fs);
    MarkOfOwned(Compiled(nodes, fs).outbounds, NodeResource(nodes[k]));
  }

  lemma {:induction false} NodesResolvers(c: Config, nodes: seq<NodeSpec>, o: Outbound)
    requires AllMarked(nodes)
    ensures o in WithNodes(c, nodes).resolvers <==>
      o in c.resolvers || exists n :: n in nodes && n.binding.Direct? && o == Outbound(DnsTag(NodeResource(n)), Mark(NodeResource(n)).value)
  {
    if nodes != [] {
      var k := |nodes| - 1;
      NodesResolvers(c, nodes[..k], o);
      assert nodes == nodes[..k] + [nodes[k]];
    }
  }

  lemma {:induction false} ForwardsKeep(c: Config, fs: seq<ForwardSpec>)
    requires ForwardsMarked(fs)
    ensures WithForwards(c, fs).resolvers == c.resolvers
    ensures forall t :: t in WithForwards(c, fs).inbounds <==>
      t in c.inbounds || exists i :: 0 <= i < |fs| && Live(fs[i]) && t == Tag(ForwardResource(fs[i]))
  {
    if fs != [] {
      ForwardsKeep(c, fs[..|fs| - 1]);
    }
  }

  lemma {:induction false} NodesInbounds(c: Config, nodes: seq<NodeSpec>)
    requires AllMarked(nodes)
    ensures forall t :: t in WithNodes(c, nodes).inbounds <==>
      t in c.inbounds || exists i :: 0 <= i < |nodes| && t == Tag(NodeResource(nodes[i]))
  {
    if nodes != [] {
      NodesInbounds(c, nodes[..|nodes| - 1]);
    }
  }

  /** Names are asked through one resolver for each direct node, which leaves under the node's own mark. */
  lemma ResolversOwnMark(nodes: seq<NodeSpec>, fs: seq<ForwardSpec>, o: Outbound)
    requires AllMarked(nodes) && ForwardsMarked(fs)
    ensures o in Compiled(nodes, fs).resolvers <==>
      exists n :: n in nodes && n.binding.Direct? && o.tag == Tag(NodeResource(n)) + "-dns" && Some(o.mark) == Mark(NodeResource(n))
  {
    var c := Config([], [], [], DeniedRules(nodes));
    NodesResolvers(c, nodes, o);
    ForwardsKeep(WithNodes(c, nodes), fs);
  }

  /** Exactly the nodes and the forwards that are neither blocked nor retired are listened for. */
  lemma ListensExactly(nodes: seq<NodeSpec>, fs: seq<ForwardSpec>, t: string)
    requires AllMarked(nodes) && ForwardsMarked(fs)
    ensures t in Compiled(nodes, fs).inbounds <==>
      || (exists i :: 0 <= i < |nodes| && t == Tag(NodeResource(nodes[i])))
      || (exists i :: 0 <= i < |fs| && !fs[i].blocked && !fs[i].retired && t == Tag(ForwardResource(fs[i])))
  {
    var c := Config([], [], [], DeniedRules(nodes));
    NodesInbounds(c, nodes);
    ForwardsKeep(WithNodes(c, nodes), fs);
  }

  /** A direct-bound node sees the resolved addresses before it routes, so a name cannot hide a private one. */
  lemma DirectNodeRoutesResolved(n: NodeSpec, host: string, w: World)
    requires Marked(n) && n.binding.Direct?
    ensures var o := OwnNode(n, Name(host), w);
            o.Routed? ==> w.answers(DnsTag(NodeResource(n)), host) == Some(o.addresses)
  {
    var tag := Tag(NodeResource(n));
    var behind := NodeRules(n)[1..];
    assert NodeRules(n)[0] == Rule([tag], Always, Resolve(DnsTag(NodeResource(n))));
    match w.answers(DnsTag(NodeResource(n)), host)
    case None =>
    case Some(found) =>
      NoMoreResolving(behind, tag, Name(host), found, w);
  }

  /** Without a further resolve rule the addresses stay as they are. */
  lemma {:induction false} NoMoreResolving(rules: seq<Rule>, tag: string, dest: Destination, known: seq<Address>, w: World)
    requires forall i :: 0 <= i < |rules| ==> !rules[i].action.Resolve?
    ensures var o := Evaluate(rules, tag, dest, known, w); o.Routed? ==> o.addresses == known
  {
    if rules != [] {
      NoMoreResolving(rules[1..], tag, dest, known, w);
    }
  }

  /** The addresses a connection is really for: the literal, or what the node's own resolver answers. */
  function Targets(n: NodeSpec, dest: Destination, w: World): Option<seq<Address>>
    requires Marked(n)
  {
    if dest.Literal? then Some([dest.address]) else w.answers(DnsTag(NodeResource(n)), dest.host)
  }

  /** A direct-bound node without permission never routes a private address, literal or resolved. */
  lemma DirectNodeNeverPrivate(nodes: seq<NodeSpec>, fs: seq<ForwardSpec>, k: nat, dest: Destination, w: World)
    requires AllMarked(nodes) && ForwardsMarked(fs) && k < |nodes|
    requires forall i, j :: 0 <= i < j < |nodes| ==> nodes[i].id != nodes[j].id
    requires nodes[k].binding.Direct? && !nodes[k].allowPrivate
    ensures var o := Serve(Compiled(nodes, fs).rules, Tag(NodeResource(nodes[k])), dest, w);
            o.Routed? ==> Targets(nodes[k], dest, w) == Some(o.addresses) && !Private(o.addresses)
  {
    NodeServedAlone(nodes, fs, k, dest, w);
    OwnNodeOutcome(nodes[k], dest, w);
    if dest.Name? {
      DirectNodeRoutesResolved(nodes[k], dest.host, w);
    } else {
      LiteralStays(NodeRules(nodes[k]), Tag(NodeResource(nodes[k])), dest, [dest.address], w);
    }
  }

  lemma {:induction false} LiteralStays(rules: seq<Rule>, tag: string, dest: Destination, known: seq<Address>, w: World)
    requires dest.Literal?
    ensures var o := Evaluate(rules, tag, dest, known, w); o.Routed? ==> o.addresses == known
  {
    if rules != [] {
      LiteralStays(rules[1..], tag, dest, known, w);
    }
  }

  /** Every connection of a live forward leaves through its own mark. */
  lemma ForwardOwnMark(nodes: seq<NodeSpec>, fs: seq<ForwardSpec>, k: nat, dest: Destination, w: World)
    requires AllMarked(nodes) && ForwardsMarked(fs) && k < |fs| && Live(fs[k])
    requires forall i, j :: 0 <= i < j < |fs| ==> fs[i].id != fs[j].id
    ensures var c := Compiled(nodes, fs);
            var o := Serve(c.rules, Tag(ForwardResource(fs[k])), dest, w);
            o.Routed? && MarkOf(c.outbounds, o.outbound) == Mark(ForwardResource(fs[k]))
  {
    ForwardServedAlone(nodes, fs, k, dest, w);
    CompiledOutbounds(nodes, fs);
    MarkOfOwned(Compiled(nodes, fs).outbounds, ForwardResource(fs[k]));
  }
}
