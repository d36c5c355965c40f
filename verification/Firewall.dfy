/**
 The signed, typed tenant firewall policy and the runtime chains that must narrow it, compared packet
 by packet (edge/compiler/core.py, `_render_nftables`; edge/runtime/contracts.py,
 `expected_nft_policy`, `render_nftables`).
 */
module Firewall {
  import opened Options
  import opened Cidr
  import opened Profiles

  // ---------------------------------------------------------------- packets

  datatype Protocol = Tcp | Udp | Icmp | Icmp6 | OtherProtocol
  datatype Tracking = New | Established | Related | Invalid | Untracked

  datatype Packet = Packet(
    source: nat, destination: nat, protocol: Protocol, sourcePort: nat, destinationPort: nat, tracking: Tracking,
    ipv4: bool, viaLoopback: bool)

  /** The same flow seen from the other side. */
  function Reversed(p: Packet): Packet {
    p.(source := p.destination, destination := p.source, sourcePort := p.destinationPort, destinationPort := p.sourcePort)
  }

  datatype Ports = Ports(start: nat, end: nat)

  predicate InPorts(port: nat, ranges: seq<Ports>) {
    exists i | 0 <= i < |ranges| :: ranges[i].start <= port <= ranges[i].end
  }

  // ---------------------------------------------------------------- facts and authority

  /** The node facts the firewall is rendered from. */
  datatype Facts = Facts(
    suffix: string,
    pbxSources: seq<Network>, signalingSources: seq<Network>, mediaSources: seq<Network>, syntheticSources: seq<Network>,
    tenantMedia: Ports, pbxMedia: Ports)

  /** What the fact and profile checks guarantee about them. */
  predicate ValidFacts(f: Facts) {
    && AllCanonical(f.pbxSources) && AllCanonical(f.signalingSources)
    && AllCanonical(f.mediaSources) && AllCanonical(f.syntheticSources)
    && !NetworksOverlap(f.pbxSources, f.signalingSources + f.mediaSources)
  }

  datatype Authority = Authority(profile: Profile, administrators: seq<Network>, dhcpServer: nat)

  const TEAMS_TLS := Ports(5061, 5061)
  const PBX_TLS := Ports(15061, 15061)
  const MICROSOFT_MEDIA_PORTS: seq<Ports> := [Ports(3478, 3481), Ports(49152, 53247)]

  // ---------------------------------------------------------------- the typed policy

  datatype PolicySetName =
    | Pbx4(suffix: string) | MsMedia4(suffix: string) | MsSignal4
    | SyntheticMedia4(suffix: string) | SyntheticSignal4(suffix: string)

  datatype PolicySet = PolicySet(name: PolicySetName, elements: seq<Network>)

  /** TCP rules carry the connection state `new`. */
  datatype PolicyRule = PolicyRule(
    id: string, sourceSet: PolicySetName, protocol: Protocol, destinationPorts: Ports, sourcePorts: Option<Ports>)

  datatype Policy = Policy(
    tenantSets: seq<PolicySet>, tenantRules: seq<PolicyRule>, clusterSets: seq<PolicySet>, clusterRules: seq<PolicyRule>)

  function ExpectedPolicy(f: Facts): Policy {
    Policy(
      [PolicySet(Pbx4(f.suffix), f.pbxSources), PolicySet(MsMedia4(f.suffix), f.mediaSources)]
      + (if f.syntheticSources == [] then [] else [PolicySet(SyntheticMedia4(f.suffix), f.syntheticSources)]),
      [PolicyRule("pbx-tls", Pbx4(f.suffix), Tcp, PBX_TLS, None),
       PolicyRule("pbx-media", Pbx4(f.suffix), Udp, f.tenantMedia, Some(f.pbxMedia)),
       PolicyRule("microsoft-media", MsMedia4(f.suffix), Udp, f.tenantMedia, None)]
      + (if f.syntheticSources == [] then []
         else [PolicyRule("synthetic-media", SyntheticMedia4(f.suffix), Udp, f.tenantMedia, None)]),
      [PolicySet(MsSignal4, f.signalingSources)]
      + (if f.syntheticSources == [] then [] else [PolicySet(SyntheticSignal4(f.suffix), f.syntheticSources)]),
      [PolicyRule("microsoft-tls", MsSignal4, Tcp, TEAMS_TLS, None)]
      + (if f.syntheticSources == [] then []
         else [PolicyRule("synthetic-tls", SyntheticSignal4(f.suffix), Tcp, TEAMS_TLS, None)]))
  }

  /** The compiler's renderer, which appends to its lists as it goes and takes the PBX sources from the
      signed manifest. */
  method RenderPolicy(pbxSources: seq<Network>, f: Facts) returns (policy: Policy)
    ensures policy == ExpectedPolicy(f.(pbxSources := pbxSources))
  {
    var sets := [PolicySet(Pbx4(f.suffix), pbxSources), PolicySet(MsMedia4(f.suffix), f.mediaSources)];
    var ownedRules := [
      PolicyRule("pbx-tls", Pbx4(f.suffix), Tcp, PBX_TLS, None),
      PolicyRule("pbx-media", Pbx4(f.suffix), Udp, f.tenantMedia, Some(f.pbxMedia)),
      PolicyRule("microsoft-media", MsMedia4(f.suffix), Udp, f.tenantMedia, None)];
    var clusterSets := [PolicySet(MsSignal4, f.signalingSources)];
    var clusterRules := [PolicyRule("microsoft-tls", MsSignal4, Tcp, TEAMS_TLS, None)];
    if f.syntheticSources != [] {
      sets := sets + [PolicySet(SyntheticMedia4(f.suffix), f.syntheticSources)];
      ownedRules := ownedRules + [PolicyRule("synthetic-media", SyntheticMedia4(f.suffix), Udp, f.tenantMedia, None)];
      clusterSets := clusterSets + [PolicySet(SyntheticSignal4(f.suffix), f.syntheticSources)];
      clusterRules := clusterRules + [PolicyRule("synthetic-tls", SyntheticSignal4(f.suffix), Tcp, TEAMS_TLS, None)];
    }
    policy := Policy(sets, ownedRules, clusterSets, clusterRules);
  }

  /** A rule's source set is the set of that name among the declared ones. */
  predicate InPolicySet(sets: seq<PolicySet>, name: PolicySetName, address: nat) {
    exists i | 0 <= i < |sets| :: sets[i].name == name && AllCanonical(sets[i].elements) && Authorizes(sets[i].elements, address)
  }

  predicate RuleAccepts(sets: seq<PolicySet>, r: PolicyRule, p: Packet) {
    && p.ipv4 && InPolicySet(sets, r.sourceSet, p.source)
    && p.protocol == r.protocol
    && r.destinationPorts.start <= p.destinationPort <= r.destinationPorts.end
    && (r.sourcePorts.Some? ==> r.sourcePorts.value.start <= p.sourcePort <= r.sourcePorts.value.end)
    && (r.protocol == Tcp ==> p.tracking == New)
  }

  predicate PolicyAccepts(policy: Policy, p: Packet) {
    || (exists i | 0 <= i < |policy.tenantRules| :: RuleAccepts(policy.tenantSets, policy.tenantRules[i], p))
    || (exists i | 0 <= i < |policy.clusterRules| :: RuleAccepts(policy.clusterSets, policy.clusterRules[i], p))
  }

  // ---------------------------------------------------------------- the runtime chains

  datatype Match =
    | Loopback
    | TrackingIs(states: set<Tracking>)
    | ProtocolIs(protocol: Protocol)
    | Ipv4Only
    | Ipv6Only
    | SourceIn(networks: seq<Network>)
    | DestinationIn(networks: seq<Network>)
    | SourceIs(address: nat)
    | DestinationIs(address: nat)
    | SourcePort(protocol: Protocol, ports: seq<Ports>)
    | DestinationPort(protocol: Protocol, ports: seq<Ports>)

  predicate Matches(m: Match, p: Packet) {
    match m
    case Loopback => p.viaLoopback
    case TrackingIs(states) => p.tracking in states
    case ProtocolIs(protocol) => p.protocol == protocol
    case Ipv4Only => p.ipv4
    case Ipv6Only => !p.ipv4
    case SourceIn(networks) => p.ipv4 && AllCanonical(networks) && Authorizes(networks, p.source)
    case DestinationIn(networks) => p.ipv4 && AllCanonical(networks) && Authorizes(networks, p.destination)
    case SourceIs(address) => p.ipv4 && p.source == address
    case DestinationIs(address) => p.ipv4 && p.destination == address
    case SourcePort(protocol, ports) => p.protocol == protocol && InPorts(p.sourcePort, ports)
    case DestinationPort(protocol, ports) => p.protocol == protocol && InPorts(p.destinationPort, ports)
  }

  datatype Verdict = Accept | Drop
  datatype Rule = Rule(matches: seq<Match>, verdict: Verdict)

  predicate Applies(r: Rule, p: Packet) {
    forall i | 0 <= i < |r.matches| :: Matches(r.matches[i], p)
  }

  /** The first rule that applies decides; the policy of the chain is drop. */
  function Decide(chain: seq<Rule>, p: Packet): Verdict {
    if chain == [] then Drop
    else if Applies(chain[0], p) then chain[0].verdict
    else Decide(chain[1..], p)
  }

  function PbxTlsIn(f: Facts): Rule {
    Rule([SourceIn(f.pbxSources), DestinationPort(Tcp, [PBX_TLS]), TrackingIs({New})], Accept)
  }

  function PbxMediaIn(f: Facts): Rule {
    Rule([SourceIn(f.pbxSources), SourcePort(Udp, [f.pbxMedia]), DestinationPort(Udp, [f.tenantMedia])], Accept)
  }

  function MicrosoftTlsIn(f: Facts): Rule {
    Rule([SourceIn(f.signalingSources), DestinationPort(Tcp, [TEAMS_TLS]), TrackingIs({New})], Accept)
  }

  function MicrosoftMediaIn(f: Facts): Rule {
    Rule([SourceIn(f.mediaSources), SourcePort(Udp, MICROSOFT_MEDIA_PORTS), DestinationPort(Udp, [f.tenantMedia])], Accept)
  }

  function SyntheticTlsIn(f: Facts): Rule {
    Rule([SourceIn(f.pbxSources), DestinationPort(Tcp, [TEAMS_TLS]), TrackingIs({New})], Accept)
  }

  function SyntheticMediaIn(f: Facts): Rule {
    Rule([SourceIn(f.pbxSources), DestinationPort(Udp, [f.tenantMedia])], Accept)
  }

  function BaseInput(a: Authority): seq<Rule> {
    [Rule([Loopback], Accept),
     Rule([TrackingIs({Invalid})], Drop),
     Rule([TrackingIs({Established, Related})], Accept),
     Rule([Ipv4Only, ProtocolIs(Icmp)], Accept),
     Rule([Ipv6Only, ProtocolIs(Icmp6)], Accept),
     Rule([SourceIs(a.dhcpServer), SourcePort(Udp, [Ports(67, 67)]), DestinationPort(Udp, [Ports(68, 68)])], Accept),
     Rule([SourceIn(a.administrators), DestinationPort(Tcp, [Ports(22, 22)]), TrackingIs({New})], Accept)]
  }

  function TenantInput(f: Facts, profile: Profile): seq<Rule> {
    (if Live(profile) then [MicrosoftTlsIn(f), MicrosoftMediaIn(f)] else [SyntheticTlsIn(f), SyntheticMediaIn(f)])
    + [PbxTlsIn(f), PbxMediaIn(f)]
  }

  function InputChain(f: Facts, a: Authority): seq<Rule> {
    BaseInput(a) + TenantInput(f, a.profile)
  }

  function PbxMediaOut(f: Facts): Rule {
    Rule([DestinationIn(f.pbxSources), SourcePort(Udp, [f.tenantMedia]), DestinationPort(Udp, [f.pbxMedia])], Accept)
  }

  function MicrosoftMediaOut(f: Facts): Rule {
    Rule([DestinationIn(f.mediaSources), SourcePort(Udp, [f.tenantMedia]), DestinationPort(Udp, MICROSOFT_MEDIA_PORTS)], Accept)
  }

  /** The fixed infrastructure the output chain admits. */
  datatype Infrastructure = Infrastructure(imds: nat, ntp: seq<Network>, controlPlane: seq<Network>)

  function BaseOutput(a: Authority, x: Infrastructure): seq<Rule> {
    [Rule([Loopback], Accept),
     Rule([TrackingIs({Invalid})], Drop),
     Rule([TrackingIs({Established, Related})], Accept),
     Rule([DestinationIs(a.dhcpServer), SourcePort(Udp, [Ports(68, 68)]), DestinationPort(Udp, [Ports(67, 67)])], Accept),
     Rule([DestinationIs(a.dhcpServer), DestinationPort(Udp, [Ports(53, 53)])], Accept),
     Rule([DestinationIs(a.dhcpServer), DestinationPort(Tcp, [Ports(53, 53)]), TrackingIs({New})], Accept),
     Rule([DestinationIs(a.dhcpServer), DestinationPort(Tcp, [Ports(80, 80), Ports(32526, 32526)]), TrackingIs({New})], Accept),
     Rule([DestinationIs(x.imds), DestinationPort(Tcp, [Ports(80, 80)]), TrackingIs({New})], Accept),
     Rule([DestinationIn(x.ntp), DestinationPort(Udp, [Ports(123, 123)])], Accept),
     Rule([DestinationIn(x.controlPlane), DestinationPort(Tcp, [Ports(443, 443)]), TrackingIs({New})], Accept),
     Rule([Ipv4Only, DestinationPort(Tcp, [Ports(80, 80), Ports(443, 443)]), TrackingIs({New})], Accept)]
  }

  function LiveOutput(f: Facts, pbxPort: nat): seq<Rule> {
    [Rule([DestinationIn(f.signalingSources), DestinationPort(Tcp, [TEAMS_TLS]), TrackingIs({New})], Accept),
     MicrosoftMediaOut(f),
     Rule([DestinationIn(f.pbxSources), DestinationPort(Tcp, [Ports(pbxPort, pbxPort)]), TrackingIs({New})], Accept),
     PbxMediaOut(f)]
  }

  function SyntheticOutput(f: Facts, x: Infrastructure): seq<Rule> {
    [Rule([DestinationIn(x.controlPlane), DestinationPort(Tcp, [Ports(16061, 16061), Ports(25061, 25061)]), TrackingIs({New})], Accept),
     Rule([DestinationIn(x.controlPlane), SourcePort(Udp, [f.tenantMedia]),
           DestinationPort(Udp, [Ports(21000, 21127), Ports(22000, 22063)])], Accept)]
  }

  function OutputChain(f: Facts, a: Authority, x: Infrastructure, pbxPort: nat): seq<Rule> {
    BaseOutput(a, x) + (if Live(a.profile) then LiveOutput(f, pbxPort) else SyntheticOutput(f, x))
  }

  // ---------------------------------------------------------------- how a chain decides

  predicate Undecided(chain: seq<Rule>, p: Packet) {
    forall i | 0 <= i < |chain| :: !Applies(chain[i], p)
  }

  /** A packet no rule of the first part applies to is decided by the second part alone. */
  lemma {:induction false} DecideConcat(a: seq<Rule>, b: seq<Rule>, p: Packet)
    requires Undecided(a, p)
    ensures Decide(a + b, p) == Decide(b, p)
    decreases |a|
  {
    if a == [] {
      assert a + b == b;
    } else {
      assert (a + b)[0] == a[0] && (a + b)[1..] == a[1..] + b;
      DecideConcat(a[1..], b, p);
    }
  }

  /** Among accepting rules the order does not matter: some rule applies. */
  lemma {:induction false} DecideAccepting(chain: seq<Rule>, p: Packet)
    requires forall i | 0 <= i < |chain| :: chain[i].verdict == Accept
    ensures Decide(chain, p) == Accept <==> exists i | 0 <= i < |chain| :: Applies(chain[i], p)
    decreases |chain|
  {
    if chain != [] {
      DecideAccepting(chain[1..], p);
      if Decide(chain[1..], p) == Accept && !Applies(chain[0], p) {
        var i :| 0 <= i < |chain| - 1 && Applies(chain[1..][i], p);
        assert Applies(chain[i + 1], p);
      }
      if i :| 0 <= i < |chain| && Applies(chain[i], p) && !Applies(chain[0], p) {
        assert chain[1..][i - 1] == chain[i];
      }
    }
  }

  // ---------------------------------------------------------------- both sides as sentences about one packet

  predicate From(networks: seq<Network>, p: Packet)
    requires AllCanonical(networks)
  {
    p.ipv4 && Authorizes(networks, p.source)
  }

  predicate Between(port: nat, ports: Ports) {
    ports.start <= port <= ports.end
  }

  predicate NewTcpTo(p: Packet, ports: Ports) {
    p.protocol == Tcp && p.tracking == New && Between(p.destinationPort, ports)
  }

  predicate UdpTo(p: Packet, ports: Ports) {
    p.protocol == Udp && Between(p.destinationPort, ports)
  }

  lemma OneRange(port: nat, ports: Ports)
    ensures InPorts(port, [ports]) <==> Between(port, ports)
  {
    if Between(port, ports) {
      assert [ports][0].start <= port <= [ports][0].end;
    }
  }

  lemma TwoMatches(a: Match, b: Match, p: Packet)
    ensures Applies(Rule([a, b], Accept), p) <==> Matches(a, p) && Matches(b, p)
  {
    var r := Rule([a, b], Accept);
    assert r.matches[0] == a && r.matches[1] == b;
  }

  lemma ThreeMatches(a: Match, b: Match, c: Match, p: Packet)
    ensures Applies(Rule([a, b, c], Accept), p) <==> Matches(a, p) && Matches(b, p) && Matches(c, p)
  {
    var r := Rule([a, b, c], Accept);
    assert r.matches[0] == a && r.matches[1] == b && r.matches[2] == c;
  }

  lemma InputRules(f: Facts, p: Packet)
    requires ValidFacts(f)
    ensures Applies(PbxTlsIn(f), p) <==> From(f.pbxSources, p) && NewTcpTo(p, PBX_TLS)
    ensures Applies(PbxMediaIn(f), p) <==> From(f.pbxSources, p) && UdpTo(p, f.tenantMedia) && Between(p.sourcePort, f.pbxMedia)
    ensures Applies(MicrosoftTlsIn(f), p) <==> From(f.signalingSources, p) && NewTcpTo(p, TEAMS_TLS)
    ensures Applies(MicrosoftMediaIn(f), p) <==>
      From(f.mediaSources, p) && UdpTo(p, f.tenantMedia) && InPorts(p.sourcePort, MICROSOFT_MEDIA_PORTS)
    ensures Applies(SyntheticTlsIn(f), p) <==> From(f.pbxSources, p) && NewTcpTo(p, TEAMS_TLS)
    ensures Applies(SyntheticMediaIn(f), p) <==> From(f.pbxSources, p) && UdpTo(p, f.tenantMedia)
  {
    hide Applies, InPorts, Authorizes, AllCanonical;
    var pbx, toTenant := SourceIn(f.pbxSources), DestinationPort(Udp, [f.tenantMedia]);
    OneRange(p.destinationPort, f.tenantMedia);
    OneRange(p.destinationPort, PBX_TLS);
    OneRange(p.destinationPort, TEAMS_TLS);
    OneRange(p.sourcePort, f.pbxMedia);
    ThreeMatches(pbx, DestinationPort(Tcp, [PBX_TLS]), TrackingIs({New}), p);
    ThreeMatches(pbx, SourcePort(Udp, [f.pbxMedia]), toTenant, p);
    ThreeMatches(SourceIn(f.signalingSources), DestinationPort(Tcp, [TEAMS_TLS]), TrackingIs({New}), p);
    ThreeMatches(SourceIn(f.mediaSources), SourcePort(Udp, MICROSOFT_MEDIA_PORTS), toTenant, p);
    ThreeMatches(pbx, DestinationPort(Tcp, [TEAMS_TLS]), TrackingIs({New}), p);
    TwoMatches(pbx, toTenant, p);
  }

  lemma InputVerdict(f: Facts, a: Authority, p: Packet)
    requires ValidFacts(f) && Undecided(BaseInput(a), p)
    ensures Decide(InputChain(f, a), p) == Accept <==>
      || Applies(PbxTlsIn(f), p) || Applies(PbxMediaIn(f), p)
      || (if Live(a.profile) then Applies(MicrosoftTlsIn(f), p) || Applies(MicrosoftMediaIn(f), p)
          else Applies(SyntheticTlsIn(f), p) || Applies(SyntheticMediaIn(f), p))
  {
    hide BaseInput, Applies, Undecided;
    DecideConcat(BaseInput(a), TenantInput(f, a.profile), p);
    hide Decide;
    var rules := TenantInput(f, a.profile);
    DecideAccepting(rules, p);
    assert rules[2] == PbxTlsIn(f) && rules[3] == PbxMediaIn(f);
    assert rules[0] == if Live(a.profile) then MicrosoftTlsIn(f) else SyntheticTlsIn(f);
    assert rules[1] == if Live(a.profile) then MicrosoftMediaIn(f) else SyntheticMediaIn(f);
  }

  lemma PolicySets(f: Facts, address: nat)
    requires ValidFacts(f)
    ensures InPolicySet(ExpectedPolicy(f).tenantSets, Pbx4(f.suffix), address) <==> Authorizes(f.pbxSources, address)
    ensures InPolicySet(ExpectedPolicy(f).tenantSets, MsMedia4(f.suffix), address) <==> Authorizes(f.mediaSources, address)
    ensures InPolicySet(ExpectedPolicy(f).clusterSets, MsSignal4, address) <==> Authorizes(f.signalingSources, address)
    ensures f.syntheticSources != [] ==>
      && (InPolicySet(ExpectedPolicy(f).tenantSets, SyntheticMedia4(f.suffix), address) <==> Authorizes(f.syntheticSources, address))
      && (InPolicySet(ExpectedPolicy(f).clusterSets, SyntheticSignal4(f.suffix), address) <==> Authorizes(f.syntheticSources, address))
  {
    hide Authorizes, AllCanonical;
    var tenant, cluster := ExpectedPolicy(f).tenantSets, ExpectedPolicy(f).clusterSets;
    assert tenant[0] == PolicySet(Pbx4(f.suffix), f.pbxSources) && tenant[1] == PolicySet(MsMedia4(f.suffix), f.mediaSources);
    assert cluster[0] == PolicySet(MsSignal4, f.signalingSources);
    if f.syntheticSources != [] {
      assert tenant[2] == PolicySet(SyntheticMedia4(f.suffix), f.syntheticSources);
      assert cluster[1] == PolicySet(SyntheticSignal4(f.suffix), f.syntheticSources);
    }
  }

  lemma NobodyIsSynthetic(p: Packet)
    ensures !Authorizes([], p.source)
  {
  }

  lemma PolicyVerdict(f: Facts, p: Packet)
    requires ValidFacts(f)
    ensures PolicyAccepts(ExpectedPolicy(f), p) <==>
      || (From(f.pbxSources, p) && NewTcpTo(p, Ports(15061, 15061)))
      || (From(f.pbxSources, p) && UdpTo(p, f.tenantMedia) && Between(p.sourcePort, f.pbxMedia))
      || (From(f.mediaSources, p) && UdpTo(p, f.tenantMedia))
      || (From(f.signalingSources, p) && NewTcpTo(p, Ports(5061, 5061)))
      || (From(f.syntheticSources, p) && (UdpTo(p, f.tenantMedia) || NewTcpTo(p, Ports(5061, 5061))))
  {
    PolicySets(f, p.source);
    NobodyIsSynthetic(p);
    hide InPolicySet, Authorizes, AllCanonical;
    var policy := ExpectedPolicy(f);
    assert policy.tenantRules[0] == PolicyRule("pbx-tls", Pbx4(f.suffix), Tcp, PBX_TLS, None);
    assert policy.tenantRules[1] == PolicyRule("pbx-media", Pbx4(f.suffix), Udp, f.tenantMedia, Some(f.pbxMedia));
    assert policy.tenantRules[2] == PolicyRule("microsoft-media", MsMedia4(f.suffix), Udp, f.tenantMedia, None);
    assert policy.clusterRules[0] == PolicyRule("microsoft-tls", MsSignal4, Tcp, TEAMS_TLS, None);
    if f.syntheticSources == [] {
      assert |policy.tenantRules| == 3 && |policy.clusterRules| == 1;
    } else {
      assert |policy.tenantRules| == 4 && |policy.clusterRules| == 2;
      assert policy.tenantRules[3] == PolicyRule("synthetic-media", SyntheticMedia4(f.suffix), Udp, f.tenantMedia, None);
      assert policy.clusterRules[1] == PolicyRule("synthetic-tls", SyntheticSignal4(f.suffix), Tcp, TEAMS_TLS, None);
    }
  }

  lemma SourcesAreApart(f: Facts, p: Packet)
    requires ValidFacts(f)
    ensures !(From(f.pbxSources, p) && (From(f.signalingSources, p) || From(f.mediaSources, p)))
  {
    var microsoft := f.signalingSources + f.mediaSources;
    DisjointAuthorities(f.pbxSources, microsoft);
    if From(f.signalingSources, p) {
      var i :| 0 <= i < |f.signalingSources| && f.signalingSources[i].Holds(p.source);
      assert microsoft[i].Holds(p.source);
    }
    if From(f.mediaSources, p) {
      var i :| 0 <= i < |f.mediaSources| && f.mediaSources[i].Holds(p.source);
      assert microsoft[|f.signalingSources| + i].Holds(p.source);
    }
  }

  // ---------------------------------------------------------------- the chain narrows the signed policy

  predicate PbxMediaFromWrongPort(f: Facts, p: Packet)
    requires ValidFacts(f)
  {
    From(f.pbxSources, p) && UdpTo(p, f.tenantMedia) && !Between(p.sourcePort, f.pbxMedia)
  }

  /** Live profiles, which like every profile are refused with synthetic sources in the facts
      (edge/runtime/contracts.py:2436-2500): over every packet the base rules leave open, what the rendered chain accepts the
      signed policy accepts, and they differ on Microsoft media from unlisted source ports alone. */
  lemma LiveChainNarrowsPolicy(f: Facts, a: Authority, p: Packet)
    requires ValidFacts(f) && f.syntheticSources == [] && Live(a.profile) && Undecided(BaseInput(a), p)
    ensures Decide(InputChain(f, a), p) == Accept ==> PolicyAccepts(ExpectedPolicy(f), p)
    ensures PolicyAccepts(ExpectedPolicy(f), p) && Decide(InputChain(f, a), p) == Drop <==>
      From(f.mediaSources, p) && UdpTo(p, f.tenantMedia) && !InPorts(p.sourcePort, MICROSOFT_MEDIA_PORTS)
  {
    InputVerdict(f, a, p);
    InputRules(f, p);
    PolicyVerdict(f, p);
    SourcesAreApart(f, p);
    hide *;
  }

  /** The synthetic profile: the chain exceeds the policy exactly on traffic of the authorised PBX
      sources to the Teams listener and to the media range from other ports, and falls short of it
      exactly on Microsoft traffic. */
  lemma SyntheticChainAgainstPolicy(f: Facts, a: Authority, p: Packet)
    requires ValidFacts(f) && f.syntheticSources == [] && !Live(a.profile) && Undecided(BaseInput(a), p)
    ensures Decide(InputChain(f, a), p) == Accept && !PolicyAccepts(ExpectedPolicy(f), p) <==>
      (From(f.pbxSources, p) && NewTcpTo(p, TEAMS_TLS)) || PbxMediaFromWrongPort(f, p)
    ensures PolicyAccepts(ExpectedPolicy(f), p) && Decide(InputChain(f, a), p) == Drop <==>
      (From(f.signalingSources, p) && NewTcpTo(p, TEAMS_TLS)) || (From(f.mediaSources, p) && UdpTo(p, f.tenantMedia))
  {
    InputVerdict(f, a, p);
    InputRules(f, p);
    PolicyVerdict(f, p);
    SourcesAreApart(f, p);
    hide Decide, InputChain, PolicyAccepts, ExpectedPolicy, From, Between, ValidFacts, Undecided, BaseInput, InPorts, Applies;
  }

  /** What the base rules leave open: every packet of a new flow that is neither loopback nor for the
      administration and address-configuration ports. */
  lemma TenantTrafficIsOpen(a: Authority, p: Packet)
    requires !p.viaLoopback && p.tracking == New && p.protocol in {Tcp, Udp} && p.destinationPort !in {22, 68}
    ensures Undecided(BaseInput(a), p)
  {
    var base := BaseInput(a);
    assert !Matches(base[0].matches[0], p) && !Matches(base[1].matches[0], p) && !Matches(base[2].matches[0], p);
    assert !Matches(base[3].matches[1], p) && !Matches(base[4].matches[1], p);
    OneRange(p.destinationPort, Ports(68, 68));
    OneRange(p.destinationPort, Ports(22, 22));
    hide InPorts;
    assert !Matches(base[5].matches[2], p) && !Matches(base[6].matches[1], p);
    assert |base| == 7;
  }

  /** So every new TCP or UDP packet from outside, to any other port, that a live node accepts is one the
      signed policy accepts. */
  lemma LiveNodeAcceptsOnlySigned(f: Facts, a: Authority, p: Packet)
    requires ValidFacts(f) && f.syntheticSources == [] && Live(a.profile)
    requires !p.viaLoopback && p.tracking == New && p.protocol in {Tcp, Udp} && p.destinationPort !in {22, 68}
    ensures Decide(InputChain(f, a), p) == Accept ==> PolicyAccepts(ExpectedPolicy(f), p)
  {
    TenantTrafficIsOpen(a, p);
    LiveChainNarrowsPolicy(f, a, p);
    hide Decide, InputChain, PolicyAccepts, ExpectedPolicy, ValidFacts, Undecided;
  }

  // ---------------------------------------------------------------- media flows both ways

  /** Media rules admit out exactly the reversals of what they admit in. */
  lemma MediaRulesAreReversals(f: Facts, p: Packet)
    ensures Applies(PbxMediaOut(f), p) <==> Applies(PbxMediaIn(f), Reversed(p))
    ensures Applies(MicrosoftMediaOut(f), p) <==> Applies(MicrosoftMediaIn(f), Reversed(p))
  {
    hide Applies, InPorts, Authorizes, AllCanonical;
    var fromTenant, toTenant := SourcePort(Udp, [f.tenantMedia]), DestinationPort(Udp, [f.tenantMedia]);
    ThreeMatches(DestinationIn(f.pbxSources), fromTenant, DestinationPort(Udp, [f.pbxMedia]), p);
    ThreeMatches(SourceIn(f.pbxSources), SourcePort(Udp, [f.pbxMedia]), toTenant, Reversed(p));
    ThreeMatches(DestinationIn(f.mediaSources), fromTenant, DestinationPort(Udp, MICROSOFT_MEDIA_PORTS), p);
    ThreeMatches(SourceIn(f.mediaSources), SourcePort(Udp, MICROSOFT_MEDIA_PORTS), toTenant, Reversed(p));
  }

  lemma OutputVerdict(f: Facts, a: Authority, x: Infrastructure, pbxPort: nat, p: Packet)
    requires Live(a.profile) && Undecided(BaseOutput(a, x), p)
    ensures Decide(OutputChain(f, a, x, pbxPort), p) == Accept <==>
      exists i | 0 <= i < 4 :: Applies(LiveOutput(f, pbxPort)[i], p)
  {
    hide BaseOutput, Applies, Undecided;
    DecideConcat(BaseOutput(a, x), LiveOutput(f, pbxPort), p);
    hide Decide;
    DecideAccepting(LiveOutput(f, pbxPort), p);
  }

  /** Every UDP packet the base rules of neither chain decide leaves exactly when its reversal may enter. */
  lemma LiveMediaIsSymmetric(f: Facts, a: Authority, x: Infrastructure, pbxPort: nat, p: Packet)
    requires ValidFacts(f) && Live(a.profile) && p.protocol == Udp
    requires Undecided(BaseOutput(a, x), p) && Undecided(BaseInput(a), Reversed(p))
    ensures Decide(OutputChain(f, a, x, pbxPort), p) == Decide(InputChain(f, a), Reversed(p))
  {
    hide BaseOutput, BaseInput, Undecided, Decide, InputChain, OutputChain;
    OutputVerdict(f, a, x, pbxPort, p);
    InputVerdict(f, a, Reversed(p));
    InputRules(f, Reversed(p));
    MediaRulesAreReversals(f, p);
    var rules := LiveOutput(f, pbxPort);
    assert rules[1] == MicrosoftMediaOut(f) && rules[3] == PbxMediaOut(f);
    assert !Matches(rules[0].matches[1], p) && !Matches(rules[2].matches[1], p);
    assert !Applies(rules[0], p) && !Applies(rules[2], p);
    hide Applies, ValidFacts, From, NewTcpTo, UdpTo;
  }

  // ---------------------------------------------------------------- the whole chains, packet by packet

  /** A new connection to one of these ports. */
  predicate Opens(p: Packet, ports: set<nat>) {
    p.protocol == Tcp && p.tracking == New && p.destinationPort in ports
  }

  predicate UdpBetween(p: Packet, source: nat, destination: nat) {
    p.ipv4 && p.protocol == Udp && p.sourcePort == source && p.destinationPort == destination
  }

  predicate To(networks: seq<Network>, p: Packet)
    requires AllCanonical(networks)
  {
    p.ipv4 && Authorizes(networks, p.destination)
  }

  predicate MicrosoftMediaPort(port: nat) {
    3478 <= port <= 3481 || 49152 <= port <= 53247
  }

  /** Every packet that the input chain accepts. */
  predicate MayEnter(f: Facts, a: Authority, p: Packet)
    requires ValidFacts(f) && AllCanonical(a.administrators)
  {
    || p.viaLoopback
    || (p.tracking != Invalid
        && (|| p.tracking == Established || p.tracking == Related
            || (p.ipv4 && p.protocol == Icmp) || (!p.ipv4 && p.protocol == Icmp6)
            || (UdpBetween(p, 67, 68) && p.source == a.dhcpServer)
            || (Opens(p, {22}) && From(a.administrators, p))
            || (Opens(p, {15061}) && From(f.pbxSources, p))
            || (UdpTo(p, f.tenantMedia) && From(f.pbxSources, p) && Between(p.sourcePort, f.pbxMedia))
            || (if a.profile != SyntheticPrivate then
                  || (Opens(p, {5061}) && From(f.signalingSources, p))
                  || (UdpTo(p, f.tenantMedia) && From(f.mediaSources, p) && MicrosoftMediaPort(p.sourcePort))
                else From(f.pbxSources, p) && (Opens(p, {5061}) || UdpTo(p, f.tenantMedia)))))
  }

  predicate ValidInfrastructure(x: Infrastructure) {
    AllCanonical(x.ntp) && AllCanonical(x.controlPlane)
  }

  /** Every packet that the output chain accepts. */
  predicate MayLeave(f: Facts, a: Authority, x: Infrastructure, pbxPort: nat, p: Packet)
    requires ValidFacts(f) && ValidInfrastructure(x)
  {
    || p.viaLoopback
    || (p.tracking != Invalid
        && (|| p.tracking == Established || p.tracking == Related
            || (p.ipv4 && p.destination == a.dhcpServer
                && (UdpBetween(p, 68, 67) || (p.protocol == Udp && p.destinationPort == 53) || Opens(p, {53, 80, 32526})))
            || (p.ipv4 && p.destination == x.imds && Opens(p, {80}))
            || (p.protocol == Udp && p.destinationPort == 123 && To(x.ntp, p))
            || (Opens(p, {443}) && To(x.controlPlane, p))
            || (p.ipv4 && Opens(p, {80, 443}))
            || (if a.profile != SyntheticPrivate then
                  || (Opens(p, {5061}) && To(f.signalingSources, p))
                  || (Opens(p, {pbxPort}) && To(f.pbxSources, p))
                  || (p.protocol == Udp && Between(p.sourcePort, f.tenantMedia)
                      && (|| (To(f.mediaSources, p) && MicrosoftMediaPort(p.destinationPort))
                          || (To(f.pbxSources, p) && Between(p.destinationPort, f.pbxMedia))))
                else
                  && To(x.controlPlane, p)
                  && (|| Opens(p, {16061, 25061})
                      || (p.protocol == Udp && Between(p.sourcePort, f.tenantMedia)
                          && (21000 <= p.destinationPort <= 21127 || 22000 <= p.destinationPort <= 22063))))))
  }

  /** Both chains: loopback first, then no invalid packet, then whatever some rule accepts. */
  lemma AfterInvalid(rest: seq<Rule>, p: Packet)
    requires forall i | 0 <= i < |rest| :: rest[i].verdict == Accept
    ensures Decide([Rule([Loopback], Accept), Rule([TrackingIs({Invalid})], Drop)] + rest, p) == Accept
       <==> p.viaLoopback || (p.tracking != Invalid && exists i | 0 <= i < |rest| :: Applies(rest[i], p))
  {
    var first, second := Rule([Loopback], Accept), Rule([TrackingIs({Invalid})], Drop);
    var chain := [first, second] + rest;
    assert chain[1..] == [second] + rest && ([second] + rest)[1..] == rest;
    assert first.matches[0] == Loopback && second.matches[0] == TrackingIs({Invalid});
    assert Applies(first, p) <==> p.viaLoopback;
    assert Applies(second, p) <==> p.tracking == Invalid;
    DecideAccepting(rest, p);
    hide Applies;
  }

  lemma OneMatch(a: Match, p: Packet)
    ensures Applies(Rule([a], Accept), p) <==> Matches(a, p)
  {
    assert Rule([a], Accept).matches[0] == a;
  }

  lemma SinglePort(port: nat, n: nat)
    ensures InPorts(port, [Ports(n, n)]) <==> port == n
  {
    OneRange(port, Ports(n, n));
  }

  lemma TwoRanges(port: nat, a: Ports, b: Ports)
    ensures InPorts(port, [a, b]) <==> Between(port, a) || Between(port, b)
  {
    if Between(port, a) { assert [a, b][0].start <= port <= [a, b][0].end; }
    if Between(port, b) { assert [a, b][1].start <= port <= [a, b][1].end; }
  }

  lemma BaseInputRules(a: Authority, p: Packet)
    requires AllCanonical(a.administrators)
    ensures var base := BaseInput(a);
      && (Applies(base[2], p) <==> p.tracking == Established || p.tracking == Related)
      && (Applies(base[3], p) <==> p.ipv4 && p.protocol == Icmp) && (Applies(base[4], p) <==> !p.ipv4 && p.protocol == Icmp6)
      && (Applies(base[5], p) <==> UdpBetween(p, 67, 68) && p.source == a.dhcpServer)
      && (Applies(base[6], p) <==> Opens(p, {22}) && From(a.administrators, p))
  {
    hide Applies, InPorts, Authorizes, AllCanonical;
    SinglePort(p.sourcePort, 67);
    SinglePort(p.destinationPort, 68);
    SinglePort(p.destinationPort, 22);
    OneMatch(TrackingIs({Established, Related}), p);
    TwoMatches(Ipv4Only, ProtocolIs(Icmp), p);
    TwoMatches(Ipv6Only, ProtocolIs(Icmp6), p);
    ThreeMatches(SourceIs(a.dhcpServer), SourcePort(Udp, [Ports(67, 67)]), DestinationPort(Udp, [Ports(68, 68)]), p);
    ThreeMatches(SourceIn(a.administrators), DestinationPort(Tcp, [Ports(22, 22)]), TrackingIs({New}), p);
  }

  lemma TenantInputRules(f: Facts, profile: Profile, p: Packet)
    requires ValidFacts(f)
    ensures (exists i | 0 <= i < 4 :: Applies(TenantInput(f, profile)[i], p)) <==>
      || (Opens(p, {15061}) && From(f.pbxSources, p))
      || (UdpTo(p, f.tenantMedia) && From(f.pbxSources, p) && Between(p.sourcePort, f.pbxMedia))
      || (if Live(profile) then
            || (Opens(p, {5061}) && From(f.signalingSources, p))
            || (UdpTo(p, f.tenantMedia) && From(f.mediaSources, p) && MicrosoftMediaPort(p.sourcePort))
          else From(f.pbxSources, p) && (Opens(p, {5061}) || UdpTo(p, f.tenantMedia)))
  {
    var rules := TenantInput(f, profile);
    InputRules(f, p);
    TwoRanges(p.sourcePort, Ports(3478, 3481), Ports(49152, 53247));
    assert rules[0] == (if Live(profile) then MicrosoftTlsIn(f) else SyntheticTlsIn(f));
    assert rules[1] == (if Live(profile) then MicrosoftMediaIn(f) else SyntheticMediaIn(f));
    assert rules[2] == PbxTlsIn(f) && rules[3] == PbxMediaIn(f) && |rules| == 4;
    SomeOfTenant(rules, p);
    hide Applies, TenantInput, InPorts, ValidFacts, From,
      PbxTlsIn, PbxMediaIn, MicrosoftTlsIn, MicrosoftMediaIn, SyntheticTlsIn, SyntheticMediaIn;
  }

  /** The input chain accepts exactly these packets, in every profile. */
  lemma InputChainExactly(f: Facts, a: Authority, p: Packet)
    requires ValidFacts(f) && AllCanonical(a.administrators)
    ensures Decide(InputChain(f, a), p) == Accept <==> MayEnter(f, a, p)
  {
    var base, tenant := BaseInput(a), TenantInput(f, a.profile);
    var rest := base[2..] + tenant;
    assert InputChain(f, a) == [Rule([Loopback], Accept), Rule([TrackingIs({Invalid})], Drop)] + rest;
    AfterInvalid(rest, p);
    BaseInputRules(a, p);
    TenantInputRules(f, a.profile, p);
    SomeOfBoth(base[2..], tenant, p);
    SomeOfFive(base[2..], p);
    hide Applies, BaseInput, TenantInput, InputChain, Decide, ValidFacts, From;
  }

  lemma SomeOfFive(rest: seq<Rule>, p: Packet)
    requires |rest| == 5
    ensures (exists i | 0 <= i < 5 :: Applies(rest[i], p)) <==>
      || Applies(rest[0], p) || Applies(rest[1], p) || Applies(rest[2], p) || Applies(rest[3], p) || Applies(rest[4], p)
  {
    hide Applies;
  }

  lemma SomeOfNine(rest: seq<Rule>, p: Packet)
    requires |rest| == 9
    ensures (exists i | 0 <= i < 9 :: Applies(rest[i], p)) <==>
      || Applies(rest[0], p) || Applies(rest[1], p) || Applies(rest[2], p) || Applies(rest[3], p) || Applies(rest[4], p)
      || Applies(rest[5], p) || Applies(rest[6], p) || Applies(rest[7], p) || Applies(rest[8], p)
  {
    hide Applies;
  }

  lemma BaseOutputRules(a: Authority, x: Infrastructure, p: Packet)
    requires ValidInfrastructure(x)
    ensures var base := BaseOutput(a, x); var toDhcp := p.ipv4 && p.destination == a.dhcpServer;
      && (Applies(base[2], p) <==> p.tracking == Established || p.tracking == Related)
      && (Applies(base[3], p) <==> toDhcp && UdpBetween(p, 68, 67))
      && (Applies(base[4], p) <==> toDhcp && p.protocol == Udp && p.destinationPort == 53)
      && (Applies(base[5], p) <==> toDhcp && Opens(p, {53}))
  {
    hide Applies, InPorts, Authorizes, AllCanonical;
    SinglePort(p.sourcePort, 68);
    SinglePort(p.destinationPort, 67);
    SinglePort(p.destinationPort, 53);
    OneMatch(TrackingIs({Established, Related}), p);
    ThreeMatches(DestinationIs(a.dhcpServer), SourcePort(Udp, [Ports(68, 68)]), DestinationPort(Udp, [Ports(67, 67)]), p);
    TwoMatches(DestinationIs(a.dhcpServer), DestinationPort(Udp, [Ports(53, 53)]), p);
    ThreeMatches(DestinationIs(a.dhcpServer), DestinationPort(Tcp, [Ports(53, 53)]), TrackingIs({New}), p);
  }

  lemma ServiceOutputRules(a: Authority, x: Infrastructure, p: Packet)
    requires ValidInfrastructure(x)
    ensures var base := BaseOutput(a, x);
      && (Applies(base[6], p) <==> p.ipv4 && p.destination == a.dhcpServer && Opens(p, {80, 32526}))
      && (Applies(base[7], p) <==> p.ipv4 && p.destination == x.imds && Opens(p, {80}))
      && (Applies(base[8], p) <==> p.protocol == Udp && p.destinationPort == 123 && To(x.ntp, p))
      && (Applies(base[9], p) <==> Opens(p, {443}) && To(x.controlPlane, p))
      && (Applies(base[10], p) <==> p.ipv4 && Opens(p, {80, 443}))
  {
    hide Applies, InPorts, Authorizes, AllCanonical;
    SinglePort(p.destinationPort, 80);
    SinglePort(p.destinationPort, 123);
    SinglePort(p.destinationPort, 443);
    TwoRanges(p.destinationPort, Ports(80, 80), Ports(443, 443));
    TwoRanges(p.destinationPort, Ports(80, 80), Ports(32526, 32526));
    ThreeMatches(DestinationIs(a.dhcpServer), DestinationPort(Tcp, [Ports(80, 80), Ports(32526, 32526)]), TrackingIs({New}), p);
    ThreeMatches(DestinationIs(x.imds), DestinationPort(Tcp, [Ports(80, 80)]), TrackingIs({New}), p);
    TwoMatches(DestinationIn(x.ntp), DestinationPort(Udp, [Ports(123, 123)]), p);
    ThreeMatches(DestinationIn(x.controlPlane), DestinationPort(Tcp, [Ports(443, 443)]), TrackingIs({New}), p);
    ThreeMatches(Ipv4Only, DestinationPort(Tcp, [Ports(80, 80), Ports(443, 443)]), TrackingIs({New}), p);
  }

  lemma LiveOutputRules(f: Facts, pbxPort: nat, p: Packet)
    requires ValidFacts(f)
    ensures var rules := LiveOutput(f, pbxPort);
      && (Applies(rules[0], p) <==> Opens(p, {5061}) && To(f.signalingSources, p))
      && (Applies(rules[1], p) <==>
            p.protocol == Udp && Between(p.sourcePort, f.tenantMedia) && To(f.mediaSources, p) && MicrosoftMediaPort(p.destinationPort))
      && (Applies(rules[2], p) <==> Opens(p, {pbxPort}) && To(f.pbxSources, p))
      && (Applies(rules[3], p) <==>
            p.protocol == Udp && Between(p.sourcePort, f.tenantMedia) && To(f.pbxSources, p) && Between(p.destinationPort, f.pbxMedia))
  {
    hide Applies, InPorts, Authorizes, AllCanonical;
    var fromTenant := SourcePort(Udp, [f.tenantMedia]);
    OneRange(p.sourcePort, f.tenantMedia);
    OneRange(p.destinationPort, f.pbxMedia);
    SinglePort(p.destinationPort, 5061);
    SinglePort(p.destinationPort, pbxPort);
    TwoRanges(p.destinationPort, Ports(3478, 3481), Ports(49152, 53247));
    ThreeMatches(DestinationIn(f.signalingSources), DestinationPort(Tcp, [TEAMS_TLS]), TrackingIs({New}), p);
    ThreeMatches(DestinationIn(f.mediaSources), fromTenant, DestinationPort(Udp, MICROSOFT_MEDIA_PORTS), p);
    ThreeMatches(DestinationIn(f.pbxSources), DestinationPort(Tcp, [Ports(pbxPort, pbxPort)]), TrackingIs({New}), p);
    ThreeMatches(DestinationIn(f.pbxSources), fromTenant, DestinationPort(Udp, [f.pbxMedia]), p);
  }

  lemma SyntheticOutputRules(f: Facts, x: Infrastructure, p: Packet)
    requires ValidInfrastructure(x)
    ensures var rules := SyntheticOutput(f, x);
      && (Applies(rules[0], p) <==> Opens(p, {16061, 25061}) && To(x.controlPlane, p))
      && (Applies(rules[1], p) <==>
            && To(x.controlPlane, p) && p.protocol == Udp && Between(p.sourcePort, f.tenantMedia)
            && (21000 <= p.destinationPort <= 21127 || 22000 <= p.destinationPort <= 22063))
  {
    hide Applies, InPorts, Authorizes, AllCanonical;
    OneRange(p.sourcePort, f.tenantMedia);
    TwoRanges(p.destinationPort, Ports(16061, 16061), Ports(25061, 25061));
    TwoRanges(p.destinationPort, Ports(21000, 21127), Ports(22000, 22063));
    ThreeMatches(DestinationIn(x.controlPlane), DestinationPort(Tcp, [Ports(16061, 16061), Ports(25061, 25061)]), TrackingIs({New}), p);
    ThreeMatches(DestinationIn(x.controlPlane), SourcePort(Udp, [f.tenantMedia]),
      DestinationPort(Udp, [Ports(21000, 21127), Ports(22000, 22063)]), p);
  }

  /** The output chain accepts exactly these packets, in every profile. */
  lemma OutputChainExactly(f: Facts, a: Authority, x: Infrastructure, pbxPort: nat, p: Packet)
    requires ValidFacts(f) && ValidInfrastructure(x)
    ensures Decide(OutputChain(f, a, x, pbxPort), p) == Accept <==> MayLeave(f, a, x, pbxPort, p)
  {
    var base := BaseOutput(a, x);
    var tenant := if Live(a.profile) then LiveOutput(f, pbxPort) else SyntheticOutput(f, x);
    var rest := base[2..] + tenant;
    assert OutputChain(f, a, x, pbxPort) == [Rule([Loopback], Accept), Rule([TrackingIs({Invalid})], Drop)] + rest;
    AfterInvalid(rest, p);
    BaseOutputRules(a, x, p);
    ServiceOutputRules(a, x, p);
    LiveOutputRules(f, pbxPort, p);
    SyntheticOutputRules(f, x, p);
    SomeOfBoth(base[2..], tenant, p);
    SomeOfNine(base[2..], p);
    SomeOfTenant(tenant, p);
    hide Applies, BaseOutput, LiveOutput, SyntheticOutput, OutputChain, Decide, ValidFacts, ValidInfrastructure, To;
  }

  lemma SomeOfBoth(a: seq<Rule>, b: seq<Rule>, p: Packet)
    ensures (exists i | 0 <= i < |a + b| :: Applies((a + b)[i], p)) <==>
      (exists i | 0 <= i < |a| :: Applies(a[i], p)) || (exists i | 0 <= i < |b| :: Applies(b[i], p))
  {
    hide Applies;
    if i :| 0 <= i < |a| && Applies(a[i], p) { assert Applies((a + b)[i], p); }
    if i :| 0 <= i < |b| && Applies(b[i], p) { assert Applies((a + b)[|a| + i], p); }
  }

  lemma SomeOfTenant(rules: seq<Rule>, p: Packet)
    requires |rules| == 2 || |rules| == 4
    ensures (exists i | 0 <= i < |rules| :: Applies(rules[i], p)) <==>
      || Applies(rules[0], p) || Applies(rules[1], p) || (|rules| == 4 && (Applies(rules[2], p) || Applies(rules[3], p)))
  {
    hide Applies;
  }
}
