/**
 What the running route program does on the wire, read back from its lines: which socket each route listens
 on and leaves from, whom it speaks TLS to, where it sends, which interfaces its media crosses, which hooks
 it sets and which routes handle them (edge/runtime/contracts.py, `_runtime_tenant_fragment`,
 `_egress_identity`, `_direct_options_routes`).
 */
module RouteFacts {
  import opened Options
  import opened TextLines
  import opened Decimals
  import opened Profiles
  import opened TenantFragment
  import opened RuntimeRewrite
  import opened TenantParser

  // ---------------------------------------------------------------- reading one line

  datatype Fact =
    | Enters(route: string)             // a request route begins
    | Listens(port: string)             // it takes requests of this socket only
    | Speaks(domain: string)            // TLS to this name
    | Sends(address: string)            // to this address
    | Leaves(socket: string)            // from this socket
    | Advertises(host: string)
    | AdvertisesPort(port: string)
    | Offers(flags: seq<string>)        // media, over these interfaces
    | Answers(flags: seq<string>)
    | AwaitsReply(route: string)
    | AwaitsFailure(route: string)
    | HandlesReply(route: string)
    | HandlesFailure(route: string)
    | Counted(hub: string)              // the hub that has just failed
    | Counts(hub: string)               // the hub that is tried
    | Requests(address: string)         // a generated request to this address
    | Contact(address: string)
    | Ticks(timer: string, seconds: string)
    | Asks(to: string, from: string, domain: string)

  /** What stands between the two texts. */
  function Inside(w: string, before: string, after: string): string {
    if |before| + |after| <= |w| && w[..|before|] == before && w[|w| - |after|..] == after then w[|before|..|w| - |after|] else ""
  }

  lemma InsideOf(before: string, x: string, after: string)
    ensures Inside(before + x + after, before, after) == x
  {
    var w := before + x + after;
    assert w[..|before|] == before && w[|w| - |after|..] == after && w[|before|..|w| - |after|] == x;
  }

  /** The last words of a media call, without what closes the call. */
  function FlagsOf(words: seq<string>): seq<string>
    requires words != []
  {
    words[..|words| - 1] + [Inside(words[|words| - 1], "", "\"))")]
  }

  function ReadsIf(words: seq<string>): Option<Fact>
    requires |words| >= 4
  {
    if words[1] == "($socket_in(port)" then Some(Listens(Inside(words[3], "", ")")))
    else if words[1] == "($avp(vivo_teams_hub)" then Some(Counted(Inside(words[3], "", ")")))
    else if words[1] == "($ru" then Some(Requests(Inside(words[3], "\"sip:", ";transport=tls\")")))
    else if words[1] == OFFER_CALL && |words| >= 5 then Some(Offers(FlagsOf(words[3..|words| - 1])))
    else if words[1] == ANSWER_CALL && |words| >= 5 then Some(Answers(FlagsOf(words[3..|words| - 1])))
    else None
  }

  function ReadsAssignment(words: seq<string>): Option<Fact>
    requires |words| == 3
  {
    if words[0] == "$du" then Some(Sends(Inside(words[2], "\"sip:", ";transport=tls\";")))
    else if words[0] == "$avp(tls_sip_dom)" then Some(Speaks(Inside(words[2], "\"", "\";")))
    else if words[0] == "$avp(vivo_teams_hub)" then Some(Counts(Inside(words[2], "", ";")))
    else None
  }

  function ReadsCall(words: seq<string>): Option<Fact>
    requires words != []
  {
    var w := words[0];
    if |w| < 6 then None
    else if w[0] == 'f' && w[1] == 'o' then Some(Leaves(Inside(w, "force_send_socket(\"tls:", "\");")))
    else if w[0] == 's' && w[1] == 'e' && w[2] == 't' && |w| > 15 then
      (if w[15] == 'a' then Some(Advertises(Inside(w, "set_advertised_address(\"", "\");")))
       else Some(AdvertisesPort(Inside(w, "set_advertised_port(\"", "\");"))))
    else if w[0] == 't' && w[1] == '_' && w[2] == 'o' then
      (if w[5] == 'r' then Some(AwaitsReply(Inside(w, "t_on_reply(\"VIVO_", "\");")))
       else Some(AwaitsFailure(Inside(w, "t_on_failure(\"VIVO_", "\");"))))
    else if w[0] == 't' && w[1] == '_' && w[2] == 'n' && |words| == 4 then
      Some(Asks(Inside(words[1], "\"sip:", ";transport=tls\","), Inside(words[2], "\"sip:", "\","), Inside(words[3], "\"sip:", "\");")))
    else if w[0] == 'a' && w[1] == 'p' && |words| == 2 then
      Some(Contact(Inside(words[1], "<sip:", ";transport=tls>\\r\\n\");")))
    else None
  }

  function ReadsHead(words: seq<string>): Option<Fact>
    requires words != []
  {
    var w := words[0];
    if |w| < 6 then None
    else if w[0] == 'r' && w[1] == 'o' then Some(Enters(Inside(w, "route[VIVO_", "]")))
    else if w[0] == 'o' && w[1] == 'n' then Some(HandlesReply(Inside(w, "onreply_route[VIVO_", "]")))
    else if w[0] == 'f' && w[1] == 'a' then Some(HandlesFailure(Inside(w, "failure_route[VIVO_", "]")))
    else if w[0] == 't' && w[1] == 'i' && |words| == 3 then Some(Ticks(Inside(w, "timer_route[VIVO_", ","), Inside(words[1], "", "]")))
    else None
  }

  function Reads(l: Line): Option<Fact> {
    if l.words == [] then None
    else if l.indent == 0 then ReadsHead(l.words)
    else if l.words[0] == "if" then (if |l.words| >= 4 then ReadsIf(l.words) else None)
    else if |l.words| == 3 && l.words[1] == "=" then ReadsAssignment(l.words)
    else ReadsCall(l.words)
  }

  /** What a program says, in order. */
  function Facts(p: Program): seq<Fact> {
    FindAll(p, Reads)
  }

  // ---------------------------------------------------------------- reading lists of lines

  predicate Silent(p: Program) {
    forall i | 0 <= i < |p| :: Reads(p[i]) == None
  }

  lemma FactsConcat(a: Program, b: Program)
    ensures Facts(a + b) == Facts(a) + Facts(b)
  {
    FindAllConcat(a, b, Reads);
  }

  lemma FactsSilent(p: Program)
    requires Silent(p)
    ensures Facts(p) == []
  {
    FindAllSilent(p, Reads);
  }

  lemma FactsLine(l: Line)
    ensures Facts([l]) == match Reads(l) case Some(f) => [f] case None => []
  {
    FindOneLine(l, Reads);
  }

  lemma {:induction false} FactsFlatten(parts: seq<Program>)
    ensures parts == [] ==> Facts(Flatten(parts)) == []
    ensures parts != [] ==> Facts(Flatten(parts)) == Facts(parts[0]) + Facts(Flatten(parts[1..]))
  {
    if parts != [] { FactsConcat(parts[0], Flatten(parts[1..])); }
    hide Facts, Reads;
  }

  lemma StartSilent(token: string, direction: string)
    ensures Silent(SyntheticStart(token, direction))
  {
  }

  lemma FinalSilent(token: string, outcome: string, indent: nat)
    requires indent > 0
    ensures Silent(SyntheticFinal(token, outcome, indent))
  {
  }

  lemma OpeningSilent(r: Route, control: string)
    ensures Silent(Title()) && Silent(SignedLines(r)) && Silent(Socket(control))
  {
  }

  lemma RefusalsSilent(digits: string)
    ensures Silent(MethodTest()) && Silent([PrefixTest(digits)]) && Silent(NoRoute()) && Silent(BeforeMedia())
  {
  }

  lemma AfterMediaSilent(token: string)
    ensures Silent(AfterMedia(token)) && Silent(Relay(token))
  {
    FinalSilent(token, "MEDIA_ANCHOR_FAILED", 12);
    FinalSilent(token, "RELAY_FAILED", 8);
    hide SyntheticFinal;
  }

  lemma IngressLines(name: string, port: string)
    ensures var p := Ingress(name, port);
      |p| == 9 && Reads(p[0]) == Some(Enters(name)) && Reads(p[1]) == Some(Listens(port)) && Silent(p[2..])
  {
    InsideOf("route[VIVO_", name, "]");
    InsideOf("", port, ")");
    assert "" + port + ")" == port + ")";
    var p := Ingress(name, port);
    forall i | 0 <= i < |p[2..]| ensures Reads(p[2..][i]) == None { assert p[2..][i] == p[i + 2]; }
  }

  /** Facts of some lines, then of the rest. */
  lemma OneThenRest(p: Program)
    requires p != []
    ensures Facts(p) == (match Reads(p[0]) case Some(f) => [f] case None => []) + Facts(p[1..])
  {
    hide Reads;
    FactsLine(p[0]);
    FactsConcat([p[0]], p[1..]);
    assert p == [p[0]] + p[1..];
    hide Facts;
  }

  lemma IngressReads(name: string, port: string)
    ensures Facts(Ingress(name, port)) == [Enters(name), Listens(port)]
  {
    IngressLines(name, port);
    hide Facts, Reads, Ingress;
    var p := Ingress(name, port);
    OneThenRest(p);
    OneThenRest(p[1..]);
    assert p[1..][1..] == p[2..];
    FactsSilent(p[2..]);
  }

  // ---------------------------------------------------------------- what each part says

  function At(host: string, port: string): string {
    host + ":" + port
  }

  lemma DestinationReads(host: string, port: string)
    ensures Reads(Destination(host, port)) == Some(Sends(At(host, port)))
    ensures Reads(Line(8, ["$du", "=", Uri(host, port)])) == Some(Sends(At(host, port)))
  {
    InsideOf("\"sip:", At(host, port), ";transport=tls\";");
    assert "\"sip:" + At(host, port) + ";transport=tls\";" == Uri(host, port);
  }

  function Egresses(node: Node, port: string): seq<Fact> {
    [Leaves(At(node.privateIpv4, port)), Advertises(node.fqdn), AdvertisesPort(port)]
  }

  lemma EgressReads(node: Node, port: string, indent: nat)
    requires indent > 0
    ensures Facts(Egress(node, port, indent)) == Egresses(node, port)
  {
    var p := Egress(node, port, indent);
    InsideOf("force_send_socket(\"tls:", At(node.privateIpv4, port), "\");");
    assert "force_send_socket(\"tls:" + At(node.privateIpv4, port) + "\");" == p[0].words[0];
    InsideOf("set_advertised_address(\"", node.fqdn, "\");");
    InsideOf("set_advertised_port(\"", port, "\");");
    assert Reads(p[0]) == Some(Leaves(At(node.privateIpv4, port)));
    assert Reads(p[1]) == Some(Advertises(node.fqdn)) && Reads(p[2]) == Some(AdvertisesPort(port));
    ThreeFacts(p);
    hide Facts, Reads, Egress;
  }

  lemma ThreeFacts(p: Program)
    requires |p| == 3 && Reads(p[0]).Some? && Reads(p[1]).Some? && Reads(p[2]).Some?
    ensures Facts(p) == [Reads(p[0]).value, Reads(p[1]).value, Reads(p[2]).value]
  {
    FactsLine(p[0]);
    FactsLine(p[1]);
    FactsLine(p[2]);
    FactsConcat([p[0]], [p[1]]);
    FactsConcat([p[0]] + [p[1]], [p[2]]);
    assert p == [p[0]] + [p[1]] + [p[2]];
    hide Facts, Reads;
  }

  lemma PeerReads(name: string, n: string, indent: nat)
    requires indent > 0
    ensures Reads(TlsDomain(name, indent)) == Some(Speaks(name)) && Reads(HubCounter(n, indent)) == Some(Counts(n))
  {
    InsideOf("\"", name, "\";");
    InsideOf("", n, ";");
    assert "" + n + ";" == n + ";";
  }

  /** The address the profile sends PBX traffic to. */
  function PbxAddress(r: Route, profile: Profile): string {
    match profile
    case SyntheticPrivate => "10.20.1.4:16061"
    case DirectRoutingPrivatePbxPoc => "10.20.1.4:5061"
    case DirectRouting => At(r.host, Decimal(r.port))
  }

  lemma PbxTargetReads(r: Route, profile: Profile)
    ensures Reads(PbxTarget(r, profile)) == Some(Sends(PbxAddress(r, profile)))
  {
    DestinationReads("10.20.1.4", "16061");
    DestinationReads("10.20.1.4", "5061");
    DestinationReads(r.host, Decimal(r.port));
    assert At("10.20.1.4", "16061") == "10.20.1.4:16061" && At("10.20.1.4", "5061") == "10.20.1.4:5061";
    hide Reads, Destination, Decimal;
  }

  lemma PbxRuntimeReads(r: Route, profile: Profile, node: Node)
    ensures Facts(PbxRuntime(r, profile, node)) == [Speaks(r.host), Sends(PbxAddress(r, profile))] + Egresses(node, "15061")
  {
    PeerReads(r.host, "", 4);
    PbxTargetReads(r, profile);
    EgressReads(node, "15061", 4);
    hide Facts, Reads, Egress, TlsDomain, PbxTarget, Egresses, PbxAddress;
    var a, b, rest := TlsDomain(r.host, 4), PbxTarget(r, profile), Egress(node, "15061", 4);
    assert PbxRuntime(r, profile, node) == [a] + [b] + rest;
    FactsLine(a);
    FactsLine(b);
    FactsConcat([a], [b]);
    FactsConcat([a] + [b], rest);
  }

  /** Where the first request towards Teams goes, by profile. */
  function FirstPeer(profile: Profile): (string, string) {
    if profile == SyntheticPrivate then ("10.20.1.4", "10.20.1.4:25061")
    else ("sip.pstnhub.microsoft.com", "sip.pstnhub.microsoft.com:5061")
  }

  function FirstHub(profile: Profile): seq<Fact> {
    (if profile == SyntheticPrivate then [] else [Counts("1")]) + [Speaks(FirstPeer(profile).0), Sends(FirstPeer(profile).1)]
  }

  lemma TeamsRuntimeReads(profile: Profile, node: Node)
    ensures Facts(TeamsRuntime(profile, node)) == FirstHub(profile) + Egresses(node, "5061")
  {
    var hub := "sip.pstnhub.microsoft.com";
    PeerReads("10.20.1.4", "1", 4);
    PeerReads(hub, "1", 4);
    DestinationReads("10.20.1.4", "25061");
    DestinationReads(hub, "5061");
    assert At("10.20.1.4", "25061") == "10.20.1.4:25061" && At(hub, "5061") == "sip.pstnhub.microsoft.com:5061";
    EgressReads(node, "5061", 4);
    var before := if profile == SyntheticPrivate then [TlsDomain("10.20.1.4", 4)] else [HubCounter("1", 4), TlsDomain(hub, 4)];
    var target := TeamsTarget(profile);
    assert TeamsRuntime(profile, node) == before + [target] + Egress(node, "5061", 4);
    hide Facts, Reads, Egress, TlsDomain, HubCounter, Destination, Egresses, At;
    FactsLine(target);
    FactsLine(before[0]);
    if profile != SyntheticPrivate {
      FactsLine(before[1]);
      FactsConcat([before[0]], [before[1]]);
      assert before == [before[0]] + [before[1]];
    } else {
      assert before == [before[0]];
    }
    FactsConcat(before, [target]);
    FactsConcat(before + [target], Egress(node, "5061", 4));
  }

  /** The interfaces of a media call, as the call spells them. */
  function Spelled(i: Interfaces): seq<string> {
    match i
    case AnyInterface => ["ICE=remove"]
    case Inward => ["ICE=remove", "in-iface=public", "out-iface=private"]
    case Outward => ["ICE=remove", "in-iface=private", "out-iface=public"]
  }

  lemma FlagsRead(i: Interfaces)
    ensures FlagsOf(Flags(i)) == Spelled(i)
  {
    InsideOf("", "ICE=remove", "\"))");
    InsideOf("", "out-iface=private", "\"))");
    InsideOf("", "out-iface=public", "\"))");
    assert "" + "ICE=remove" + "\"))" == "ICE=remove\"))";
    assert "" + "out-iface=private" + "\"))" == "out-iface=private\"))";
    assert "" + "out-iface=public" + "\"))" == "out-iface=public\"))";
  }

  lemma MediaReads(i: Interfaces)
    ensures Reads(OfferLine(i)) == Some(Offers(Spelled(i))) && Reads(Answer(Flags(i))) == Some(Answers(Spelled(i)))
  {
    FlagsRead(i);
    assert OfferLine(i).words[3..|OfferLine(i).words| - 1] == Flags(i);
    assert Answer(Flags(i)).words[3..|Answer(Flags(i)).words| - 1] == Flags(i);
    hide Flags, FlagsOf, Spelled;
  }

  lemma HooksRead(name: string)
    ensures Reads(ReplyHook(name)) == Some(AwaitsReply(name)) && Reads(FailureHook(name)) == Some(AwaitsFailure(name))
  {
    InsideOf("t_on_reply(\"VIVO_", name, "\");");
    InsideOf("t_on_failure(\"VIVO_", name, "\");");
  }

  // ---------------------------------------------------------------- the two routes

  lemma SilentParts(token: string, prefix: string, fixture: string)
    ensures Facts(MethodTest()) == [] && Facts([PrefixTest(prefix)]) == [] && Facts(NoRoute()) == [] && Facts(SyntheticStart(token, fixture)) == []
    ensures Facts(BeforeMedia()) == [] && Facts(AfterMedia(token)) == [] && Facts(Relay(token)) == []
  {
    RefusalsSilent(prefix);
    StartSilent(token, fixture);
    AfterMediaSilent(token);
    hide Facts, Reads, MethodTest, PrefixTest, NoRoute, SyntheticStart, BeforeMedia, AfterMedia, Relay;
    FactsSilent(MethodTest());
    FactsSilent([PrefixTest(prefix)]);
    FactsSilent(NoRoute());
    FactsSilent(SyntheticStart(token, fixture));
    FactsSilent(BeforeMedia());
    FactsSilent(AfterMedia(token));
    FactsSilent(Relay(token));
  }

  lemma DirectionReads(token: string, prefix: string, name: string, port: string, fixture: string, leg: Leg)
    requires Reads(leg.offer).Some? && Reads(leg.reply).Some? && Reads(leg.failure).Some?
    ensures Facts(Flatten(Direction(token, prefix, name, port, fixture, leg)))
         == [Enters(token + name), Listens(port)] + Facts(leg.destination)
          + [Reads(leg.offer).value, Reads(leg.reply).value, Reads(leg.failure).value]
  {
    hide Facts, Reads, Flatten, Ingress, MethodTest, PrefixTest, NoRoute, SyntheticStart, BeforeMedia, AfterMedia, Relay;
    IngressReads(token + name, port);
    SilentParts(token, prefix, fixture);
    FactsLine(leg.offer);
    FactsLine(leg.reply);
    FactsLine(leg.failure);
    var parts := Direction(token, prefix, name, port, fixture, leg);
    assert |parts| == 12 && parts[5] == leg.destination && parts[0] == Ingress(token + name, port);
    assert parts[7] == [leg.offer] && parts[9] == [leg.reply] && parts[10] == [leg.failure];
    FirstHalf(parts);
    SecondHalf(parts);
    hide Direction;
  }

  lemma FirstHalf(parts: seq<Program>)
    requires |parts| == 12 && Facts(parts[1]) == [] && Facts(parts[2]) == [] && Facts(parts[3]) == [] && Facts(parts[4]) == []
    ensures Facts(Flatten(parts)) == Facts(parts[0]) + Facts(parts[5]) + Facts(Flatten(parts[6..]))
  {
    hide Facts, Flatten;
    FactsFlatten(parts);
    FactsFlatten(parts[1..]);
    FactsFlatten(parts[1..][1..]);
    FactsFlatten(parts[1..][1..][1..]);
    FactsFlatten(parts[1..][1..][1..][1..]);
    FactsFlatten(parts[1..][1..][1..][1..][1..]);
    assert parts[1..][1..][1..][1..][1..][1..] == parts[6..];
  }

  lemma SecondHalf(parts: seq<Program>)
    requires |parts| == 12 && Facts(parts[6]) == [] && Facts(parts[8]) == [] && Facts(parts[11]) == []
    ensures Facts(Flatten(parts[6..])) == Facts(parts[7]) + Facts(parts[9]) + Facts(parts[10])
  {
    hide Facts, Flatten;
    var rest := parts[6..];
    FactsFlatten(rest);
    FactsFlatten(rest[1..]);
    FactsFlatten(rest[1..][1..]);
    FactsFlatten(rest[1..][1..][1..]);
    FactsFlatten(rest[1..][1..][1..][1..]);
    FactsFlatten(rest[1..][1..][1..][1..][1..]);
    FactsFlatten(rest[1..][1..][1..][1..][1..][1..]);
    assert rest[1..][1..][1..][1..][1..][1..] == [];
  }

  /** The interfaces of the two legs' media. */
  function TowardsPbx(profile: Profile): Interfaces {
    if profile == DirectRoutingPrivatePbxPoc then Inward else AnyInterface
  }

  function TowardsTeams(profile: Profile): Interfaces {
    if profile == DirectRoutingPrivatePbxPoc then Outward else AnyInterface
  }

  function ReplySuffix(profile: Profile, toPbx: bool): string {
    if profile != DirectRoutingPrivatePbxPoc then "_MEDIA_REPLY"
    else if toPbx then "_TEAMS_TO_PBX_MEDIA_REPLY" else "_PBX_TO_TEAMS_MEDIA_REPLY"
  }

  function TeamsToPbx(r: Route, profile: Profile, node: Node): seq<Fact> {
    [Enters(r.token + "_TEAMS_TO_PBX"), Listens("5061")]
    + [Speaks(r.host), Sends(PbxAddress(r, profile))] + Egresses(node, "15061")
    + [Offers(Spelled(TowardsPbx(profile))), AwaitsReply(r.token + ReplySuffix(profile, true)), AwaitsFailure(r.token + "_MEDIA_FAILURE")]
  }

  function PbxToTeams(r: Route, profile: Profile, node: Node): seq<Fact> {
    [Enters(r.token + "_PBX_TO_TEAMS"), Listens("15061")]
    + FirstHub(profile) + Egresses(node, "5061")
    + [Offers(Spelled(TowardsTeams(profile))), AwaitsReply(r.token + ReplySuffix(profile, false)),
       AwaitsFailure(r.token + if profile == SyntheticPrivate then "_MEDIA_FAILURE" else "_TEAMS_FAILOVER")]
  }

  lemma LegsRead(r: Route, profile: Profile, node: Node)
    ensures var leg := OutboundLeg(r, profile, node);
      && Reads(leg.offer) == Some(Offers(Spelled(TowardsPbx(profile))))
      && Reads(leg.reply) == Some(AwaitsReply(r.token + ReplySuffix(profile, true)))
      && Reads(leg.failure) == Some(AwaitsFailure(r.token + "_MEDIA_FAILURE"))
    ensures var leg := InboundLeg(r, profile, node);
      && Reads(leg.offer) == Some(Offers(Spelled(TowardsTeams(profile))))
      && Reads(leg.reply) == Some(AwaitsReply(r.token + ReplySuffix(profile, false)))
      && Reads(leg.failure) == Some(AwaitsFailure(r.token + if profile == SyntheticPrivate then "_MEDIA_FAILURE" else "_TEAMS_FAILOVER"))
  {
    MediaReads(TowardsPbx(profile));
    MediaReads(TowardsTeams(profile));
    HooksRead(r.token + ReplySuffix(profile, true));
    HooksRead(r.token + ReplySuffix(profile, false));
    HooksRead(r.token + "_MEDIA_FAILURE");
    HooksRead(r.token + "_TEAMS_FAILOVER");
    hide Reads, OfferLine, ReplyHook, FailureHook, Spelled;
  }

  lemma OutboundReads(r: Route, profile: Profile, node: Node)
    ensures Facts(Flatten(Outbound(r, SPELLED, OutboundLeg(r, profile, node)))) == TeamsToPbx(r, profile, node)
  {
    LegsRead(r, profile, node);
    PbxRuntimeReads(r, profile, node);
    var leg := OutboundLeg(r, profile, node);
    assert leg.destination == PbxRuntime(r, profile, node);
    hide Facts, Reads, Spelled, PbxRuntime, Flatten, Direction, Egresses, ReplySuffix, OutboundLeg;
    DirectionReads(r.token, r.prefix, "_TEAMS_TO_PBX", "5061", "TEAMS_FIXTURE_TO_PBX_FIXTURE", leg);
  }

  lemma InboundReads(r: Route, profile: Profile, node: Node)
    ensures Facts(Flatten(Inbound(r, SPELLED, InboundLeg(r, profile, node)))) == PbxToTeams(r, profile, node)
  {
    LegsRead(r, profile, node);
    TeamsRuntimeReads(profile, node);
    var leg := InboundLeg(r, profile, node);
    assert leg.destination == TeamsRuntime(profile, node);
    hide Facts, Reads, Spelled, TeamsRuntime, Flatten, Direction, Egresses, ReplySuffix, FirstHub, InboundLeg;
    DirectionReads(r.token, r.prefix, "_PBX_TO_TEAMS", "15061", "PBX_FIXTURE_TO_TEAMS_FIXTURE", leg);
  }

  // ---------------------------------------------------------------- replies and failures

  lemma ReplyHeadReads(name: string, last: seq<string>)
    ensures var p := ReplyOpening(name, last); Reads(p[0]) == Some(HandlesReply(name)) && Reads(p[1]) == None
  {
    InsideOf("onreply_route[VIVO_", name, "]");
  }

  lemma ReplyRouteReads(token: string, name: string, i: Interfaces)
    ensures Facts(ReplyRoute(token, name, Flags(i))) == [HandlesReply(name), Answers(Spelled(i))]
  {
    var opening := ReplyOpening(name, Flags(i));
    ReplyHeadReads(name, Flags(i));
    MediaReads(i);
    ReplyRestSilent(token, name, Flags(i));
    hide Facts, Reads, SyntheticFinal, ReplyMiddle, ReplyEnd, Answer, Spelled, Flags;
    var rest := SyntheticFinal(token, "MEDIA_ANCHOR_FAILED", 12) + ReplyMiddle() + SyntheticFinal(token, "ACCEPTED", 8) + ReplyEnd();
    assert |opening| == 3 && opening[2] == Answer(Flags(i));
    hide ReplyOpening;
    assert ReplyRoute(token, name, Flags(i)) == opening + rest;
    FactsConcat(opening, rest);
    FactsSilent(rest);
    OneThenRest(opening);
    OneThenRest(opening[1..]);
    assert opening[1..][1..] == [opening[2]];
    FactsLine(opening[2]);
  }

  lemma ReplyRestSilent(token: string, name: string, last: seq<string>)
    ensures Silent(SyntheticFinal(token, "MEDIA_ANCHOR_FAILED", 12) + ReplyMiddle() + SyntheticFinal(token, "ACCEPTED", 8) + ReplyEnd())
  {
    FinalSilent(token, "MEDIA_ANCHOR_FAILED", 12);
    FinalSilent(token, "ACCEPTED", 8);
    assert Silent(ReplyMiddle()) && Silent(ReplyEnd());
    hide Reads, SyntheticFinal, ReplyMiddle, ReplyEnd;
  }

  /** Replies cross back over the interfaces that the offer crossed. */
  function Replies(r: Route, profile: Profile): seq<Fact> {
    if profile != DirectRoutingPrivatePbxPoc then [HandlesReply(r.token + "_MEDIA_REPLY"), Answers(["ICE=remove"])]
    else
      [HandlesReply(r.token + "_TEAMS_TO_PBX_MEDIA_REPLY"), Answers(["ICE=remove", "in-iface=private", "out-iface=public"]),
       HandlesReply(r.token + "_PBX_TO_TEAMS_MEDIA_REPLY"), Answers(["ICE=remove", "in-iface=public", "out-iface=private"])]
  }

  lemma RepliesRead(r: Route, profile: Profile)
    ensures Facts(RuntimeReplies(r, profile)) == Replies(r, profile)
  {
    ReplyRouteReads(r.token, r.token + "_MEDIA_REPLY", AnyInterface);
    ReplyRouteReads(r.token, r.token + "_TEAMS_TO_PBX_MEDIA_REPLY", Outward);
    ReplyRouteReads(r.token, r.token + "_PBX_TO_TEAMS_MEDIA_REPLY", Inward);
    BlankSilent();
    hide Facts, ReplyRoute, Flags;
    var inward, outward := MediaReplyRoute(r, Inward), MediaReplyRoute(r, Outward);
    FactsConcat(inward, [BLANK]);
    FactsConcat(inward + [BLANK], outward);
  }

  lemma BlankSilent()
    ensures Facts([BLANK]) == []
  {
    FactsLine(BLANK);
  }

  lemma FailureRouteReads(token: string)
    ensures Facts(FailureRoute(token)) == [HandlesFailure(token + "_MEDIA_FAILURE")]
  {
    var p := FailureRoute(token);
    var name := token + "_MEDIA_FAILURE";
    InsideOf("failure_route[VIVO_", name, "]");
    assert "_MEDIA_FAILURE]" == "_MEDIA_FAILURE" + "]";
    assert "failure_route[VIVO_" + name + "]" == "failure_route[VIVO_" + token + "_MEDIA_FAILURE]";
    FinalSilent(token, "SIP_FAILURE", 4);
    var head := p[0];
    var rest := SyntheticFinal(token, "SIP_FAILURE", 4) + [Line(4, ["rtpengine_delete();"]), Line(0, [CLOSE])];
    assert p == [head] + rest by { hide SyntheticFinal; }
    assert Reads(head) == Some(HandlesFailure(name));
    assert Silent([Line(4, ["rtpengine_delete();"]), Line(0, [CLOSE])]);
    hide Reads, SyntheticFinal, FailureRoute;
    assert Silent(rest);
    FactsSilent(rest);
    FactsLine(head);
    hide Facts;
    FactsConcat([head], rest);
  }

  /** After a hub has failed, the next one: it is counted, spoken to, sent to, and this handler awaits its
      failure too. */
  function NextHub(token: string, node: Node, failed: string, next: string, hub: string): seq<Fact> {
    [Counted(failed), Counts(next), Speaks(hub), Sends(At(hub, "5061"))] + Egresses(node, "5061") + [AwaitsFailure(token + "_TEAMS_FAILOVER")]
  }

  lemma FailoverLines(token: string, failed: string, hub: string)
    ensures Reads(Line(4, ["if", "($avp(vivo_teams_hub)", "==", failed + ")", BRACE])) == Some(Counted(failed))
    ensures Reads(Line(8, ["t_on_failure(\"VIVO_" + token + "_TEAMS_FAILOVER\");"])) == Some(AwaitsFailure(token + "_TEAMS_FAILOVER"))
    ensures Silent([Line(8, ["if", "(t_relay())", "exit;"]), Line(4, [CLOSE])])
  {
    InsideOf("", failed, ")");
    assert "" + failed + ")" == failed + ")";
    InsideOf("t_on_failure(\"VIVO_", token + "_TEAMS_FAILOVER", "\");");
    assert "_TEAMS_FAILOVER\");" == "_TEAMS_FAILOVER" + "\");";
    assert "t_on_failure(\"VIVO_" + (token + "_TEAMS_FAILOVER") + "\");" == "t_on_failure(\"VIVO_" + token + "_TEAMS_FAILOVER\");";
  }

  lemma FailoverStepReads(r: Route, node: Node, hub: string, failed: string, next: string)
    ensures Facts(FailoverStep(r, node, hub, failed, next)) == NextHub(r.token, node, failed, next, hub)
  {
    var a := Line(4, ["if", "($avp(vivo_teams_hub)", "==", failed + ")", BRACE]);
    var d := Line(8, ["$du", "=", Uri(hub, "5061")]);
    var hook := Line(8, ["t_on_failure(\"VIVO_" + r.token + "_TEAMS_FAILOVER\");"]);
    var end := [Line(8, ["if", "(t_relay())", "exit;"]), Line(4, [CLOSE])];
    FailoverLines(r.token, failed, hub);
    PeerReads(hub, next, 8);
    DestinationReads(hub, "5061");
    EgressReads(node, "5061", 8);
    hide Facts, Reads, Egress, TlsDomain, HubCounter, Uri, Egresses, At;
    var before := [a] + [HubCounter(next, 8)] + [TlsDomain(hub, 8)] + [d];
    assert FailoverStep(r, node, hub, failed, next) == before + Egress(node, "5061", 8) + [hook] + end;
    hide FailoverStep;
    FactsSilent(end);
    FourFacts(a, HubCounter(next, 8), TlsDomain(hub, 8), d);
    FactsLine(hook);
    FactsConcat(before, Egress(node, "5061", 8));
    FactsConcat(before + Egress(node, "5061", 8), [hook]);
    FactsConcat(before + Egress(node, "5061", 8) + [hook], end);
  }

  lemma FourFacts(a: Line, b: Line, c: Line, d: Line)
    requires Reads(a).Some? && Reads(b).Some? && Reads(c).Some? && Reads(d).Some?
    ensures Facts([a] + [b] + [c] + [d]) == [Reads(a).value, Reads(b).value, Reads(c).value, Reads(d).value]
  {
    hide Facts, Reads;
    FactsLine(a);
    FactsLine(b);
    FactsLine(c);
    FactsLine(d);
    FactsConcat([a], [b]);
    FactsConcat([a] + [b], [c]);
    FactsConcat([a] + [b] + [c], [d]);
  }

  function Failover(token: string, node: Node): seq<Fact> {
    [HandlesFailure(token + "_TEAMS_FAILOVER")]
    + NextHub(token, node, "1", "2", "sip2.pstnhub.microsoft.com") + NextHub(token, node, "2", "3", "sip3.pstnhub.microsoft.com")
  }

  lemma FailoverFrame(token: string)
    ensures Reads(Line(0, ["failure_route[VIVO_" + token + "_TEAMS_FAILOVER]", BRACE])) == Some(HandlesFailure(token + "_TEAMS_FAILOVER"))
    ensures Silent([Line(4, ["if", "(t_was_cancelled())", BRACE]), Line(8, ["rtpengine_delete();"]), Line(8, ["exit;"]), Line(4, [CLOSE])])
    ensures Silent([Line(4, ["rtpengine_delete();"]), Line(0, [CLOSE])])
  {
    var name := token + "_TEAMS_FAILOVER";
    InsideOf("failure_route[VIVO_", name, "]");
    assert "_TEAMS_FAILOVER]" == "_TEAMS_FAILOVER" + "]";
    assert "failure_route[VIVO_" + name + "]" == "failure_route[VIVO_" + token + "_TEAMS_FAILOVER]";
  }

  lemma FailoverReads(r: Route, node: Node)
    ensures Facts(FailoverRoute(r, node)) == Failover(r.token, node)
  {
    var head := Line(0, ["failure_route[VIVO_" + r.token + "_TEAMS_FAILOVER]", BRACE]);
    var cancel := [Line(4, ["if", "(t_was_cancelled())", BRACE]), Line(8, ["rtpengine_delete();"]), Line(8, ["exit;"]), Line(4, [CLOSE])];
    var end := [Line(4, ["rtpengine_delete();"]), Line(0, [CLOSE])];
    FailoverFrame(r.token);
    var two, three := FailoverStep(r, node, TEAMS_HUBS[1], "1", "2"), FailoverStep(r, node, TEAMS_HUBS[2], "2", "3");
    FailoverStepReads(r, node, TEAMS_HUBS[1], "1", "2");
    FailoverStepReads(r, node, TEAMS_HUBS[2], "2", "3");
    hide Facts, Reads, FailoverStep, NextHub;
    assert FailoverRoute(r, node) == [head] + cancel + two + three + end;
    hide FailoverRoute;
    FactsSilent(cancel);
    FactsSilent(end);
    FactsLine(head);
    FactsConcat([head], cancel);
    FactsConcat([head] + cancel, two);
    FactsConcat([head] + cancel + two, three);
    FactsConcat([head] + cancel + two + three, end);
  }

  // ---------------------------------------------------------------- generated OPTIONS

  function LocalFacts(node: Node, t: OptionsTarget): seq<Fact> {
    [Requests(At(t.host, t.port)), Speaks(t.domain)] + Egresses(node, t.egress) + [Contact(At(node.fqdn, t.egress))]
  }

  lemma LocalLines(node: Node, t: OptionsTarget)
    ensures Reads(Line(4, ["if", "($ru", "==", "\"sip:" + t.host + ":" + t.port + ";transport=tls\")", BRACE])) == Some(Requests(At(t.host, t.port)))
    ensures Reads(Line(8, ["append_hf(\"Contact:", "<sip:" + node.fqdn + ":" + t.egress + ";transport=tls>" + "\\r\\n\");"]))
         == Some(Contact(At(node.fqdn, t.egress)))
    ensures Silent([Line(8, ["exit;"]), Line(4, [CLOSE])])
  {
    InsideOf("\"sip:", At(t.host, t.port), ";transport=tls\")");
    assert "\"sip:" + At(t.host, t.port) + ";transport=tls\")" == "\"sip:" + t.host + ":" + t.port + ";transport=tls\")";
    InsideOf("<sip:", At(node.fqdn, t.egress), ";transport=tls>\\r\\n\");");
    assert ";transport=tls>\\r\\n\");" == ";transport=tls>" + "\\r\\n\");";
    assert "<sip:" + At(node.fqdn, t.egress) + ";transport=tls>\\r\\n\");"
        == "<sip:" + node.fqdn + ":" + t.egress + ";transport=tls>" + "\\r\\n\");";
  }

  lemma LocalReads(node: Node, t: OptionsTarget)
    ensures Facts(LocalTarget(node, t)) == LocalFacts(node, t)
  {
    var test := Line(4, ["if", "($ru", "==", "\"sip:" + t.host + ":" + t.port + ";transport=tls\")", BRACE]);
    var contact := Line(8, ["append_hf(\"Contact:", "<sip:" + node.fqdn + ":" + t.egress + ";transport=tls>" + "\\r\\n\");"]);
    var end := [Line(8, ["exit;"]), Line(4, [CLOSE])];
    LocalLines(node, t);
    PeerReads(t.domain, "", 8);
    EgressReads(node, t.egress, 8);
    var domain, egress := TlsDomain(t.domain, 8), Egress(node, t.egress, 8);
    assert LocalTarget(node, t) == [test, domain] + egress + [contact] + end by { hide Egress, TlsDomain, Facts, Reads; }
    FiveParts(test, domain, egress, contact, end);
    hide Facts, Reads, Egress, TlsDomain, Egresses, At, LocalTarget;
  }

  lemma FiveParts(a: Line, b: Line, c: Program, d: Line, e: Program)
    requires Reads(a).Some? && Reads(b).Some? && Reads(d).Some? && Silent(e)
    ensures Facts([a, b] + c + [d] + e) == [Reads(a).value, Reads(b).value] + Facts(c) + [Reads(d).value]
  {
    FactsSilent(e);
    hide Facts, Reads;
    FactsLine(a);
    FactsLine(b);
    FactsLine(d);
    assert [a, b] == [a] + [b];
    FactsConcat([a], [b]);
    FactsConcat([a, b], c);
    FactsConcat([a, b] + c, [d]);
    FactsConcat([a, b] + c + [d], e);
  }

  function AllLocal(node: Node, targets: seq<OptionsTarget>): seq<Fact> {
    if targets == [] then [] else LocalFacts(node, targets[0]) + AllLocal(node, targets[1..])
  }

  lemma {:induction false} AllLocalRead(node: Node, targets: seq<OptionsTarget>)
    ensures Facts(LocalTargets(node, targets)) == AllLocal(node, targets)
    decreases |targets|
  {
    hide Reads, LocalTarget, LocalFacts;
    if targets != [] {
      hide Facts;
      LocalReads(node, targets[0]);
      AllLocalRead(node, targets[1..]);
      FactsConcat(LocalTarget(node, targets[0]), LocalTargets(node, targets[1..]));
    }
  }

  function Asked(node: Node, t: OptionsTarget): Fact {
    Asks(At(t.host, t.port), At(node.fqdn, t.egress), At(t.domain, t.port))
  }

  lemma TimerReads(node: Node, t: OptionsTarget)
    ensures Reads(TimerRequest(node, t)) == Some(Asked(node, t))
  {
    InsideOf("\"sip:", At(t.host, t.port), ";transport=tls\",");
    InsideOf("\"sip:", At(node.fqdn, t.egress), "\",");
    InsideOf("\"sip:", At(t.domain, t.port), "\");");
    assert "\"sip:" + At(t.host, t.port) + ";transport=tls\"," == "\"sip:" + t.host + ":" + t.port + ";transport=tls\",";
    assert "\"sip:" + At(node.fqdn, t.egress) + "\"," == "\"sip:" + node.fqdn + ":" + t.egress + "\",";
    assert "\"sip:" + At(t.domain, t.port) + "\");" == "\"sip:" + t.domain + ":" + t.port + "\");";
    var l := TimerRequest(node, t);
    assert l.words[1] == "\"sip:" + At(t.host, t.port) + ";transport=tls\",";
    assert l.words[2] == "\"sip:" + At(node.fqdn, t.egress) + "\"," && l.words[3] == "\"sip:" + At(t.domain, t.port) + "\");";
    assert l.words[0] == "t_new_request(\"OPTIONS\"," && |l.words[0]| == 24;
    hide At;
    assert ReadsCall(l.words) == Some(Asked(node, t));
  }

  function AllAsked(node: Node, targets: seq<OptionsTarget>): seq<Fact> {
    seq(|targets|, i requires 0 <= i < |targets| => Asked(node, targets[i]))
  }

  lemma {:induction false} AllAskedRead(node: Node, targets: seq<OptionsTarget>, lines: Program)
    requires |lines| == |targets| && forall i | 0 <= i < |lines| :: lines[i] == TimerRequest(node, targets[i])
    ensures Facts(lines) == AllAsked(node, targets)
    decreases |lines|
  {
    hide Reads, TimerRequest, Asked;
    if lines != [] {
      TimerReads(node, targets[0]);
      OneThenRest(lines);
      AllAskedRead(node, targets[1..], lines[1..]);
      assert AllAsked(node, targets) == [Asked(node, targets[0])] + AllAsked(node, targets[1..]);
    }
  }

  function Probes(r: Route, node: Node, targets: seq<OptionsTarget>): seq<Fact> {
    AllLocal(node, targets) + [Ticks(r.token + "_DIRECT_OPTIONS", Decimal(r.interval))] + AllAsked(node, targets)
  }

  function OptionsStart(): Program {
    [Comment(["Direct", "Routing", "OPTIONS", "generation;", "peer", "responses", "are", "an", "external", "acceptance", "gate."]),
     Line(0, ["local_route", BRACE]), Line(4, ["if", "(!is_method(\"OPTIONS\"))", BRACE]), Line(8, ["exit;"]), Line(4, [CLOSE])]
  }

  function TimerHead(r: Route): Line {
    Line(0, ["timer_route[VIVO_" + r.token + "_DIRECT_OPTIONS,", Decimal(r.interval) + "]", BRACE])
  }

  function TimerRequests(node: Node, targets: seq<OptionsTarget>): Program {
    seq(|targets|, i requires 0 <= i < |targets| => TimerRequest(node, targets[i]))
  }

  lemma OptionsLines(r: Route)
    ensures Silent(OptionsStart())
    ensures Silent([Line(4, ["exit;"]), Line(0, [CLOSE]), BLANK]) && Silent([Line(0, [CLOSE])])
    ensures Reads(TimerHead(r)) == Some(Ticks(r.token + "_DIRECT_OPTIONS", Decimal(r.interval)))
  {
    var name := r.token + "_DIRECT_OPTIONS";
    InsideOf("timer_route[VIVO_", name, ",");
    assert "_DIRECT_OPTIONS," == "_DIRECT_OPTIONS" + ",";
    assert "timer_route[VIVO_" + name + "," == "timer_route[VIVO_" + r.token + "_DIRECT_OPTIONS,";
    InsideOf("", Decimal(r.interval), "]");
    assert "" + Decimal(r.interval) + "]" == Decimal(r.interval) + "]";
    hide Decimal;
  }

  lemma OptionsShape(r: Route, profile: Profile, node: Node)
    ensures DirectOptions(r, profile, node)
         == OptionsStart() + LocalTargets(node, OptionsTargets(r, profile)) + [Line(4, ["exit;"]), Line(0, [CLOSE]), BLANK] + [TimerHead(r)]
          + TimerRequests(node, OptionsTargets(r, profile)) + [Line(0, [CLOSE])]
  {
    hide OptionsTargets, LocalTargets, TimerRequest, Decimal;
  }

  lemma OptionsRead(r: Route, profile: Profile, node: Node)
    ensures Facts(DirectOptions(r, profile, node)) == Probes(r, node, OptionsTargets(r, profile))
  {
    var targets := OptionsTargets(r, profile);
    var between, end := [Line(4, ["exit;"]), Line(0, [CLOSE]), BLANK], [Line(0, [CLOSE])];
    OptionsLines(r);
    OptionsShape(r, profile, node);
    hide Facts, Reads, OptionsTargets, Decimal, AllLocal, AllAsked, LocalTargets, TimerRequest, DirectOptions;
    FactsSilent(OptionsStart());
    FactsSilent(between);
    FactsSilent(end);
    FactsLine(TimerHead(r));
    AllLocalRead(node, targets);
    AllAskedRead(node, targets, TimerRequests(node, targets));
    hide OptionsStart, TimerHead, TimerRequests;
    SixParts(OptionsStart(), LocalTargets(node, targets), between, [TimerHead(r)], TimerRequests(node, targets), end);
    NothingBetween(AllLocal(node, targets), [Ticks(r.token + "_DIRECT_OPTIONS", Decimal(r.interval))], AllAsked(node, targets));
  }

  lemma NothingBetween(a: seq<Fact>, b: seq<Fact>, c: seq<Fact>)
    ensures [] + a + [] + b + c + [] == a + b + c
  {
  }

  lemma SixParts(a: Program, b: Program, c: Program, d: Program, e: Program, f: Program)
    ensures Facts(a + b + c + d + e + f) == Facts(a) + Facts(b) + Facts(c) + Facts(d) + Facts(e) + Facts(f)
  {
    hide Facts, Reads;
    FactsConcat(a, b);
    FactsConcat(a + b, c);
    FactsConcat(a + b + c, d);
    FactsConcat(a + b + c + d, e);
    FactsConcat(a + b + c + d + e, f);
  }

  // ---------------------------------------------------------------- the whole program

  function Failures(r: Route, profile: Profile, node: Node): seq<Fact> {
    [HandlesFailure(r.token + "_MEDIA_FAILURE")]
    + if profile == SyntheticPrivate then [] else Failover(r.token, node) + Probes(r, node, OptionsTargets(r, profile))
  }

  lemma TailReads(r: Route, profile: Profile, node: Node)
    ensures Facts(RuntimeTail(r, profile, node)) == Failures(r, profile, node)
  {
    var failure, failover, options := FailureRoute(r.token), FailoverRoute(r, node), DirectOptions(r, profile, node);
    FailureRouteReads(r.token);
    FailoverReads(r, node);
    OptionsRead(r, profile, node);
    BlankSilent();
    hide Facts, Reads, FailureRoute, FailoverRoute, DirectOptions, OptionsTargets, Probes, Failover;
    if profile == SyntheticPrivate {
      assert RuntimeTail(r, profile, node) == failure;
    } else {
      assert RuntimeTail(r, profile, node) == failure + [BLANK] + failover + [BLANK] + options;
      FactsConcat(failure, [BLANK]);
      FactsConcat(failure + [BLANK], failover);
      FactsConcat(failure + [BLANK] + failover, [BLANK]);
      FactsConcat(failure + [BLANK] + failover + [BLANK], options);
    }
  }

  lemma PartsRead(r: Route, profile: Profile, node: Node)
    ensures Facts(Flatten(RuntimeParts(r, profile, node)))
         == TeamsToPbx(r, profile, node) + PbxToTeams(r, profile, node) + Replies(r, profile) + Failures(r, profile, node)
  {
    var out, inn := Outbound(r, SPELLED, OutboundLeg(r, profile, node)), Inbound(r, SPELLED, InboundLeg(r, profile, node));
    var replies, tail := RuntimeReplies(r, profile), RuntimeTail(r, profile, node);
    OutboundReads(r, profile, node);
    InboundReads(r, profile, node);
    RepliesRead(r, profile);
    TailReads(r, profile, node);
    OpeningFacts(r);
    EndFacts(replies, tail);
    hide Facts, Reads, Flatten, Opening, Outbound, Inbound, OutboundLeg, InboundLeg, RuntimeReplies, RuntimeTail,
         TeamsToPbx, PbxToTeams, Replies, Failures;
    assert RuntimeParts(r, profile, node) == Opening(r, SPELLED) + out + inn + [replies, [BLANK], tail];
    FlattenConcat(Opening(r, SPELLED) + out + inn, [replies, [BLANK], tail]);
    FlattenConcat(Opening(r, SPELLED) + out, inn);
    FlattenConcat(Opening(r, SPELLED), out);
    FactsConcat(Flatten(Opening(r, SPELLED)) + Flatten(out) + Flatten(inn), Flatten([replies, [BLANK], tail]));
    FactsConcat(Flatten(Opening(r, SPELLED)) + Flatten(out), Flatten(inn));
    FactsConcat(Flatten(Opening(r, SPELLED)), Flatten(out));
  }

  lemma OpeningFacts(r: Route)
    ensures Facts(Flatten(Opening(r, SPELLED))) == []
  {
    var parts := Opening(r, SPELLED);
    OpeningSilent(r, SPELLED.control);
    hide Reads, Title, SignedLines, Socket;
    FactsSilent(Title());
    FactsSilent(SignedLines(r));
    FactsSilent(Socket(SPELLED.control));
    hide Facts, Flatten;
    FactsFlatten(parts);
    FactsFlatten(parts[1..]);
    FactsFlatten(parts[1..][1..]);
    FactsFlatten(parts[1..][1..][1..]);
  }

  lemma EndFacts(replies: Program, tail: Program)
    ensures Facts(Flatten([replies, [BLANK], tail])) == Facts(replies) + Facts(tail)
  {
    var parts := [replies, [BLANK], tail];
    BlankSilent();
    hide Facts, Reads, Flatten;
    FactsFlatten(parts);
    FactsFlatten(parts[1..]);
    FactsFlatten(parts[1..][1..]);
    FactsFlatten(parts[1..][1..][1..]);
  }

  /** All that the running program says on the wire: for every renderable route, profile and node. */
  lemma RunningProgramReads(r: Route, profile: Profile, node: Node)
    requires Renderable(r) && ';' !in r.host && !TargetsFirstHub(r)
    ensures RuntimeFragment(r, profile, node).Some?
    ensures Facts(RuntimeFragment(r, profile, node).value)
         == TeamsToPbx(r, profile, node) + PbxToTeams(r, profile, node) + Replies(r, profile) + Failures(r, profile, node)
  {
    RewritingIsTotalAndExact(r, profile, node);
    PartsRead(r, profile, node);
    hide *;
  }

  // ---------------------------------------------------------------- how the routes relate

  predicate Head(f: Fact) {
    f.Enters? || f.HandlesReply? || f.HandlesFailure? || f.Ticks?
  }

  /** The facts of one request route: from its head to the next. */
  function Section(facts: seq<Fact>, route: string): seq<Fact> {
    if facts == [] then [] else if facts[0] == Enters(route) then Body(facts[1..]) else Section(facts[1..], route)
  }

  function Body(facts: seq<Fact>): seq<Fact> {
    if facts == [] || Head(facts[0]) then [] else [facts[0]] + Body(facts[1..])
  }

  lemma {:induction false} BodyStops(a: seq<Fact>, b: seq<Fact>)
    requires (forall i | 0 <= i < |a| :: !Head(a[i])) && b != [] && Head(b[0])
    ensures Body(a + b) == a
    decreases |a|
  {
    if a == [] {
      assert a + b == b;
    } else {
      BodyStops(a[1..], b);
      assert (a + b)[0] == a[0] && (a + b)[1..] == a[1..] + b;
    }
  }

  lemma {:induction false} SectionSkips(a: seq<Fact>, b: seq<Fact>, route: string)
    requires forall i | 0 <= i < |a| :: a[i] != Enters(route)
    ensures Section(a + b, route) == Section(b, route)
    decreases |a|
  {
    if a == [] {
      assert a + b == b;
    } else {
      SectionSkips(a[1..], b, route);
      assert (a + b)[0] == a[0] && (a + b)[1..] == a[1..] + b;
    }
  }

  predicate Headed(facts: seq<Fact>, route: string) {
    facts != [] && facts[0] == Enters(route) && forall i | 0 < i < |facts| :: !Head(facts[i])
  }

  lemma SectionStarts(first: seq<Fact>, rest: seq<Fact>, a: string)
    requires Headed(first, a) && rest != [] && Head(rest[0])
    ensures Section(first + rest, a) == first[1..]
  {
    hide Head;
    assert (first + rest)[0] == first[0] && (first + rest)[1..] == first[1..] + rest;
    BodyStops(first[1..], rest);
    hide Body;
  }

  lemma SectionsOfParts(first: seq<Fact>, second: seq<Fact>, rest: seq<Fact>, a: string, b: string)
    requires Headed(first, a) && Headed(second, b) && a != b && rest != [] && Head(rest[0])
    ensures Section(first + second + rest, a) == first[1..] && Section(first + second + rest, b) == second[1..]
  {
    assert first + second + rest == first + (second + rest);
    assert (second + rest)[0] == second[0];
    forall i | 0 <= i < |first| ensures first[i] != Enters(b) { if i > 0 { assert !Head(first[i]); } }
    SectionStarts(second, rest, b);
    hide Section, Body;
    SectionSkips(first, second + rest, b);
    SectionStarts(first, second + rest, a);
  }

  /** What one route of the running program says. */
  function RouteOf(r: Route, profile: Profile, node: Node, name: string): seq<Fact>
    requires RuntimeFragment(r, profile, node).Some?
  {
    Section(Facts(RuntimeFragment(r, profile, node).value), r.token + name)
  }

  lemma RoutesAreHeaded(r: Route, profile: Profile, node: Node)
    ensures Headed(TeamsToPbx(r, profile, node), r.token + "_TEAMS_TO_PBX")
    ensures Headed(PbxToTeams(r, profile, node), r.token + "_PBX_TO_TEAMS")
    ensures Replies(r, profile) != [] && Head(Replies(r, profile)[0])
    ensures r.token + "_TEAMS_TO_PBX" != r.token + "_PBX_TO_TEAMS"
  {
    hide At, PbxAddress, Spelled, ReplySuffix, TowardsPbx, TowardsTeams;
    var a, b := r.token + "_TEAMS_TO_PBX", r.token + "_PBX_TO_TEAMS";
    assert a[|r.token| + 1] == 'T' && b[|r.token| + 1] == 'P';
  }

  lemma FourAsThree(a: seq<Fact>, b: seq<Fact>, c: seq<Fact>, d: seq<Fact>)
    requires c != []
    ensures a + b + c + d == a + b + (c + d) && c + d != [] && (c + d)[0] == c[0]
  {
  }

  lemma SectionsRead(r: Route, profile: Profile, node: Node, all: seq<Fact>)
    requires all == TeamsToPbx(r, profile, node) + PbxToTeams(r, profile, node) + Replies(r, profile) + Failures(r, profile, node)
    ensures Section(all, r.token + "_TEAMS_TO_PBX") == TeamsToPbx(r, profile, node)[1..]
    ensures Section(all, r.token + "_PBX_TO_TEAMS") == PbxToTeams(r, profile, node)[1..]
  {
    RoutesAreHeaded(r, profile, node);
    var out, inn := TeamsToPbx(r, profile, node), PbxToTeams(r, profile, node);
    hide Replies, Failures, TeamsToPbx, PbxToTeams, Head, Section;
    FourAsThree(out, inn, Replies(r, profile), Failures(r, profile, node));
    SectionsOfParts(out, inn, Replies(r, profile) + Failures(r, profile, node), r.token + "_TEAMS_TO_PBX", r.token + "_PBX_TO_TEAMS");
  }

  lemma RoutesRead(r: Route, profile: Profile, node: Node)
    requires Renderable(r) && ';' !in r.host && !TargetsFirstHub(r)
    ensures RuntimeFragment(r, profile, node).Some?
    ensures RouteOf(r, profile, node, "_TEAMS_TO_PBX") == TeamsToPbx(r, profile, node)[1..]
    ensures RouteOf(r, profile, node, "_PBX_TO_TEAMS") == PbxToTeams(r, profile, node)[1..]
  {
    RunningProgramReads(r, profile, node);
    SectionsRead(r, profile, node, Facts(RuntimeFragment(r, profile, node).value));
    hide RuntimeFragment, Facts, Replies, Failures, TeamsToPbx, PbxToTeams, Section, Renderable, TargetsFirstHub;
  }

  /** One fact of its kind, and no other. */
  ghost predicate Solely(facts: seq<Fact>, f: Fact, kind: Fact -> bool) {
    exists i | 0 <= i < |facts| :: facts[i] == f && forall j | 0 <= j < |facts| && kind(facts[j]) :: j == i
  }

  /** A request route takes requests of one port, speaks to one peer at one address, and leaves from one
      socket, which it advertises. */
  ghost predicate Runs(facts: seq<Fact>, listens: string, speaks: string, sends: string, node: Node, leaves: string) {
    && Solely(facts, Listens(listens), (f: Fact) => f.Listens?)
    && Solely(facts, Speaks(speaks), (f: Fact) => f.Speaks?)
    && Solely(facts, Sends(sends), (f: Fact) => f.Sends?)
    && Solely(facts, Leaves(node.privateIpv4 + ":" + leaves), (f: Fact) => f.Leaves?)
    && Solely(facts, Advertises(node.fqdn), (f: Fact) => f.Advertises?)
    && Solely(facts, AdvertisesPort(leaves), (f: Fact) => f.AdvertisesPort?)
  }

  lemma SolelyAt(facts: seq<Fact>, i: nat, f: Fact, kind: Fact -> bool)
    requires i < |facts| && facts[i] == f && forall j | 0 <= j < |facts| && kind(facts[j]) :: j == i
    ensures Solely(facts, f, kind)
  {
  }

  /** Six facts in a row, a listening port before them and none of their kinds after. */
  predicate Rowed(facts: seq<Fact>, n: nat, listens: string, speaks: string, sends: string, node: Node, leaves: string) {
    && n <= 1 && |facts| == 9 + n && facts[0] == Listens(listens) && (n == 1 ==> facts[1].Counts?)
    && facts[n + 1] == Speaks(speaks) && facts[n + 2] == Sends(sends) && facts[n + 3] == Leaves(node.privateIpv4 + ":" + leaves)
    && facts[n + 4] == Advertises(node.fqdn) && facts[n + 5] == AdvertisesPort(leaves)
    && facts[n + 6].Offers? && facts[n + 7].AwaitsReply? && facts[n + 8].AwaitsFailure?
  }

  lemma PeerAlone(facts: seq<Fact>, n: nat, listens: string, speaks: string, sends: string, node: Node, leaves: string)
    requires Rowed(facts, n, listens, speaks, sends, node, leaves)
    ensures Solely(facts, Listens(listens), (f: Fact) => f.Listens?)
    ensures Solely(facts, Speaks(speaks), (f: Fact) => f.Speaks?) && Solely(facts, Sends(sends), (f: Fact) => f.Sends?)
  {
    hide Solely;
    SolelyAt(facts, 0, Listens(listens), (f: Fact) => f.Listens?);
    SolelyAt(facts, n + 1, Speaks(speaks), (f: Fact) => f.Speaks?);
    SolelyAt(facts, n + 2, Sends(sends), (f: Fact) => f.Sends?);
  }

  lemma EgressAlone(facts: seq<Fact>, n: nat, listens: string, speaks: string, sends: string, node: Node, leaves: string)
    requires Rowed(facts, n, listens, speaks, sends, node, leaves)
    ensures Solely(facts, Leaves(node.privateIpv4 + ":" + leaves), (f: Fact) => f.Leaves?)
    ensures Solely(facts, Advertises(node.fqdn), (f: Fact) => f.Advertises?)
    ensures Solely(facts, AdvertisesPort(leaves), (f: Fact) => f.AdvertisesPort?)
  {
    hide Solely;
    SolelyAt(facts, n + 3, Leaves(node.privateIpv4 + ":" + leaves), (f: Fact) => f.Leaves?);
    SolelyAt(facts, n + 4, Advertises(node.fqdn), (f: Fact) => f.Advertises?);
    SolelyAt(facts, n + 5, AdvertisesPort(leaves), (f: Fact) => f.AdvertisesPort?);
  }

  lemma RunsAt(facts: seq<Fact>, n: nat, listens: string, speaks: string, sends: string, node: Node, leaves: string)
    requires Rowed(facts, n, listens, speaks, sends, node, leaves)
    ensures Runs(facts, listens, speaks, sends, node, leaves)
  {
    PeerAlone(facts, n, listens, speaks, sends, node, leaves);
    EgressAlone(facts, n, listens, speaks, sends, node, leaves);
    hide Solely, Rowed;
  }

  lemma TeamsToPbxRuns(r: Route, profile: Profile, node: Node)
    ensures Runs(TeamsToPbx(r, profile, node)[1..], "5061", r.host, PbxAddress(r, profile), node, "15061")
  {
    hide PbxAddress, Spelled, ReplySuffix, TowardsPbx, Runs;
    RunsAt(TeamsToPbx(r, profile, node)[1..], 0, "5061", r.host, PbxAddress(r, profile), node, "15061");
  }

  lemma PbxToTeamsRuns(r: Route, profile: Profile, node: Node)
    ensures Runs(PbxToTeams(r, profile, node)[1..], "15061", FirstPeer(profile).0, FirstPeer(profile).1, node, "5061")
  {
    hide Spelled, ReplySuffix, TowardsTeams, Runs, FirstPeer;
    RunsAt(PbxToTeams(r, profile, node)[1..], if profile == SyntheticPrivate then 0 else 1, "15061", FirstPeer(profile).0, FirstPeer(profile).1,
      node, "5061");
  }

  /** The two routes of every running program face each other: each leaves from, and advertises, the port that
      the other one listens on, at the node's own address, and speaks to its own peer alone. */
  lemma RoutesFaceEachOther(r: Route, profile: Profile, node: Node) returns (p: string, q: string)
    requires Renderable(r) && ';' !in r.host && !TargetsFirstHub(r)
    ensures RuntimeFragment(r, profile, node).Some? && p != q
    ensures Runs(RouteOf(r, profile, node, "_TEAMS_TO_PBX"), p, r.host, PbxAddress(r, profile), node, q)
    ensures Runs(RouteOf(r, profile, node, "_PBX_TO_TEAMS"), q, FirstPeer(profile).0, FirstPeer(profile).1, node, p)
  {
    p, q := "5061", "15061";
    RoutesRead(r, profile, node);
    TeamsToPbxRuns(r, profile, node);
    PbxToTeamsRuns(r, profile, node);
    hide *;
  }

  lemma NextPeer(token: string, node: Node, failed: string, next: string, hub: string)
    ensures |NextHub(token, node, failed, next, hub)| == 8
    ensures NextHub(token, node, failed, next, hub)[2..4] == [Speaks(hub), Sends(At(hub, "5061"))]
  {
    hide At;
  }

  /** The generated requests of a live node go where its routes go, from the sockets they leave from: to each
      hub as the request route and its failover do, and to the PBX as the other route does, but for the port in
      the private-PBX profile, where calls go to 5061 and probes to the route's own port. */
  lemma ProbesFollowRoutes(r: Route, profile: Profile, node: Node)
    requires profile != SyntheticPrivate
    ensures var t := OptionsTargets(r, profile);
      && |t| == 4 && t[0].egress == t[1].egress == t[2].egress == "5061" && t[3].egress == "15061"
      && [Speaks(t[0].domain), Sends(At(t[0].host, t[0].port))] == FirstHub(profile)[1..]
      && [Speaks(t[1].domain), Sends(At(t[1].host, t[1].port))] == NextHub(r.token, node, "1", "2", "sip2.pstnhub.microsoft.com")[2..4]
      && [Speaks(t[2].domain), Sends(At(t[2].host, t[2].port))] == NextHub(r.token, node, "2", "3", "sip3.pstnhub.microsoft.com")[2..4]
      && t[3].domain == r.host
      && (At(t[3].host, t[3].port) == PbxAddress(r, profile) <==> profile == DirectRouting || r.port == 5061)
  {
    assert At("sip.pstnhub.microsoft.com", "5061") == "sip.pstnhub.microsoft.com:5061";
    NextPeer(r.token, node, "1", "2", "sip2.pstnhub.microsoft.com");
    NextPeer(r.token, node, "2", "3", "sip3.pstnhub.microsoft.com");
    hide NextHub;
    if profile == DirectRoutingPrivatePbxPoc {
      var port := Decimal(r.port);
      assert At("10.20.1.4", "5061") == "10.20.1.4:5061";
      OnlyPort5061(r.port);
      if At("10.20.1.4", port) == "10.20.1.4:5061" {
        assert port == At("10.20.1.4", port)[10..] && "5061" == "10.20.1.4:5061"[10..];
      }
    }
    hide Decimal;
  }
}
