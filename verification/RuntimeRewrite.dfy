/**
 The runtime's search-and-replace rewriting of the signed route program
 (edge/runtime/contracts.py, `_runtime_tenant_fragment`).
 */
module RuntimeRewrite {
  import opened Options
  import opened TextLines
  import opened Decimals
  import opened Profiles
  import opened TenantFragment
  import CompilerRenderer
  import TenantParser

  datatype Node = Node(privateIpv4: string, fqdn: string)

  // ---------------------------------------------------------------- what is put in

  function Egress(node: Node, port: string, indent: nat): Program {
    [Line(indent, ["force_send_socket(\"tls:" + node.privateIpv4 + ":" + port + "\");"]),
     Line(indent, ["set_advertised_address(\"" + node.fqdn + "\");"]),
     Line(indent, ["set_advertised_port(\"" + port + "\");"])]
  }

  function TlsDomain(name: string, indent: nat): Line {
    Line(indent, ["$avp(tls_sip_dom)", "=", "\"" + name + "\";"])
  }

  function HubCounter(n: string, indent: nat): Line {
    Line(indent, ["$avp(vivo_teams_hub)", "=", n + ";"])
  }

  function PbxDestination(r: Route): Line {
    Destination(r.host, Decimal(r.port))
  }

  function PbxTarget(r: Route, profile: Profile): Line {
    match profile
    case SyntheticPrivate => Destination("10.20.1.4", "16061")
    case DirectRoutingPrivatePbxPoc => Destination("10.20.1.4", "5061")
    case DirectRouting => PbxDestination(r)
  }

  function PbxRuntime(r: Route, profile: Profile, node: Node): (p: Program)
    ensures Replacement(p)
  {
    [TlsDomain(r.host, 4), PbxTarget(r, profile)] + Egress(node, "15061", 4)
  }

  function TeamsDestination(): Line {
    Destination(TEAMS_HUBS[0], "5061")
  }

  function TeamsTarget(profile: Profile): Line {
    if profile == SyntheticPrivate then Destination("10.20.1.4", "25061") else TeamsDestination()
  }

  function TeamsRuntime(profile: Profile, node: Node): (p: Program)
    ensures Replacement(p)
  {
    (if profile == SyntheticPrivate then [TlsDomain("10.20.1.4", 4)] else [HubCounter("1", 4), TlsDomain(TEAMS_HUBS[0], 4)])
    + [TeamsTarget(profile)] + Egress(node, "5061", 4)
  }

  /** Which interface media is taken from and which it is sent to: unsaid, from the public to the private
      one, or back. */
  datatype Interfaces = AnyInterface | Inward | Outward

  function Flags(i: Interfaces): seq<string> {
    match i
    case AnyInterface => ANY_INTERFACE
    case Inward => ["ICE=remove", "in-iface=public", "out-iface=private\"))"]
    case Outward => ["ICE=remove", "in-iface=private", "out-iface=public\"))"]
  }

  function OfferLine(i: Interfaces): Line {
    Offer(Flags(i))
  }

  /** The reply hooks: the generic one, and one for each direction. */
  function ReplyName(i: Interfaces): string {
    match i
    case AnyInterface => "_MEDIA_REPLY"
    case Inward => "_TEAMS_TO_PBX_MEDIA_REPLY"
    case Outward => "_PBX_TO_TEAMS_MEDIA_REPLY"
  }

  function MediaHook(r: Route, i: Interfaces): Line {
    ReplyHook(r.token + ReplyName(i))
  }

  function GenericFailureHook(r: Route): Line {
    FailureHook(r.token + "_MEDIA_FAILURE")
  }

  /** The reply route of a hook; replies to an offer cross the other way. */
  function MediaReplyRoute(r: Route, offer: Interfaces): Program {
    ReplyRoute(r.token, r.token + ReplyName(offer), Flags(Opposite(offer)))
  }

  function Opposite(i: Interfaces): Interfaces {
    match i
    case AnyInterface => AnyInterface
    case Inward => Outward
    case Outward => Inward
  }

  function FailoverStep(r: Route, node: Node, hub: string, current: string, next: string): Program {
    [Line(4, ["if", "($avp(vivo_teams_hub)", "==", current + ")", BRACE]),
     HubCounter(next, 8), TlsDomain(hub, 8), Line(8, ["$du", "=", Uri(hub, "5061")])]
    + Egress(node, "5061", 8)
    + [Line(8, ["t_on_failure(\"VIVO_" + r.token + "_TEAMS_FAILOVER\");"]), Line(8, ["if", "(t_relay())", "exit;"]), Line(4, [CLOSE])]
  }

  function FailoverRoute(r: Route, node: Node): Program {
    [Line(0, ["failure_route[VIVO_" + r.token + "_TEAMS_FAILOVER]", BRACE]),
     Line(4, ["if", "(t_was_cancelled())", BRACE]), Line(8, ["rtpengine_delete();"]), Line(8, ["exit;"]), Line(4, [CLOSE])]
    + FailoverStep(r, node, TEAMS_HUBS[1], "1", "2") + FailoverStep(r, node, TEAMS_HUBS[2], "2", "3")
    + [Line(4, ["rtpengine_delete();"]), Line(0, [CLOSE])]
  }

  /** One generated OPTIONS target: the request and the identity it leaves with. */
  datatype OptionsTarget = OptionsTarget(host: string, port: string, domain: string, egress: string)

  function LocalTarget(node: Node, t: OptionsTarget): Program {
    [Line(4, ["if", "($ru", "==", "\"sip:" + t.host + ":" + t.port + ";transport=tls\")", BRACE]), TlsDomain(t.domain, 8)]
    + Egress(node, t.egress, 8)
    + [Line(8, ["append_hf(\"Contact:", "<sip:" + node.fqdn + ":" + t.egress + ";transport=tls>" + "\\r\\n\");"]),
       Line(8, ["exit;"]), Line(4, [CLOSE])]
  }

  function TimerRequest(node: Node, t: OptionsTarget): Line {
    Line(4, ["t_new_request(\"OPTIONS\",", "\"sip:" + t.host + ":" + t.port + ";transport=tls\",",
             "\"sip:" + node.fqdn + ":" + t.egress + "\",", "\"sip:" + t.domain + ":" + t.port + "\");"])
  }

  function OptionsTargets(r: Route, profile: Profile): seq<OptionsTarget> {
    [OptionsTarget(TEAMS_HUBS[0], "5061", TEAMS_HUBS[0], "5061"), OptionsTarget(TEAMS_HUBS[1], "5061", TEAMS_HUBS[1], "5061"),
     OptionsTarget(TEAMS_HUBS[2], "5061", TEAMS_HUBS[2], "5061"),
     OptionsTarget(if profile == DirectRoutingPrivatePbxPoc then "10.20.1.4" else r.host, Decimal(r.port), r.host, "15061")]
  }

  function LocalTargets(node: Node, targets: seq<OptionsTarget>): Program {
    if targets == [] then [] else LocalTarget(node, targets[0]) + LocalTargets(node, targets[1..])
  }

  function DirectOptions(r: Route, profile: Profile, node: Node): Program {
    var targets := OptionsTargets(r, profile);
    [Comment(["Direct", "Routing", "OPTIONS", "generation;", "peer", "responses", "are", "an", "external", "acceptance", "gate."]),
     Line(0, ["local_route", BRACE]), Line(4, ["if", "(!is_method(\"OPTIONS\"))", BRACE]), Line(8, ["exit;"]), Line(4, [CLOSE])]
    + LocalTargets(node, targets)
    + [Line(4, ["exit;"]), Line(0, [CLOSE]), BLANK,
       Line(0, ["timer_route[VIVO_" + r.token + "_DIRECT_OPTIONS,", Decimal(r.interval) + "]", BRACE])]
    + seq(|targets|, i requires 0 <= i < |targets| => TimerRequest(node, targets[i])) + [Line(0, [CLOSE])]
  }

  function RuntimeTail(r: Route, profile: Profile, node: Node): Program {
    FailureRoute(r.token)
    + if Live(profile) then [BLANK] + FailoverRoute(r, node) + [BLANK] + DirectOptions(r, profile, node) else []
  }

  // ---------------------------------------------------------------- the rewriting, step by step

  function ReplaceDestinations(source: Program, r: Route, profile: Profile, node: Node): Option<Program> {
    if Count(source, PbxDestination(r)) != 1 then None
    else
      var pbxDone := ReplaceFirst(source, PbxDestination(r), PbxRuntime(r, profile, node));
      if Count(pbxDone, TeamsDestination()) != 1 then None
      else Some(ReplaceFirst(pbxDone, TeamsDestination(), TeamsRuntime(profile, node)))
  }

  /** Replaces the two occurrences of a line, the first by one line and the second by another. */
  function ReplacePair(source: Program, pattern: Line, first: Line, second: Line): Option<Program>
    requires first.words != [] && second.words != []
  {
    if Count(source, pattern) != 2 then None
    else Some(ReplaceFirst(ReplaceFirst(source, pattern, [first]), pattern, [second]))
  }

  function GenericReplyRoute(r: Route): Program {
    MediaReplyRoute(r, AnyInterface)
  }

  function DirectedReplyRoutes(r: Route): Program {
    MediaReplyRoute(r, Inward) + [BLANK] + MediaReplyRoute(r, Outward)
  }

  function DirectMedia(source: Program, r: Route): Option<Program> {
    match ReplacePair(source, OfferLine(AnyInterface), OfferLine(Inward), OfferLine(Outward))
    case None => None
    case Some(offers) =>
      match ReplacePair(offers, MediaHook(r, AnyInterface), MediaHook(r, Inward), MediaHook(r, Outward))
      case None => None
      case Some(hooks) =>
        if CountBlock(hooks, GenericReplyRoute(r)) != 1 then None
        else Some(ReplaceBlock(hooks, GenericReplyRoute(r), DirectedReplyRoutes(r)))
  }

  function FailoverHook(r: Route, profile: Profile): Line {
    FailureHook(r.token + if Live(profile) then "_TEAMS_FAILOVER" else "_MEDIA_FAILURE")
  }

  /** Of exactly two failure hooks the second becomes the failover hook. */
  function ReplaceSecondHook(source: Program, r: Route, profile: Profile): Option<Program> {
    var hook := GenericFailureHook(r);
    var first := Find(source, hook, 0);
    if first == |source| then None
    else
      var second := Find(source, hook, first + 1);
      if second == |source| || Find(source, hook, second + 1) < |source| then None
      else Some(source[..second] + Splice(source[second], hook, [FailoverHook(r, profile)]) + source[second + 1..])
  }

  /** The steps after the destinations: media directions, failover hook, tail. */
  function DirectAndFinish(routed: Program, r: Route, profile: Profile, node: Node): Option<Program> {
    match (if profile == DirectRoutingPrivatePbxPoc then DirectMedia(routed, r) else Some(routed))
    case None => None
    case Some(directed) =>
      match ReplaceSecondHook(directed, r, profile)
      case None => None
      case Some(hooked) =>
        if CountBlock(hooked, FailureRoute(r.token)) != 1 then None
        else Some(ReplaceBlock(hooked, FailureRoute(r.token), RuntimeTail(r, profile, node)))
  }

  function RuntimeFragment(r: Route, profile: Profile, node: Node): Option<Program> {
    match CompilerFragment(r)
    case None => None
    case Some(source) =>
      match ReplaceDestinations(source, r, profile, node)
      case None => None
      case Some(routed) => DirectAndFinish(routed, r, profile, node)
  }

  // ---------------------------------------------------------------- what the result is meant to be

  /** The media direction of the offers in the route towards the PBX, and in the other one. */
  function OutboundMedia(profile: Profile): Interfaces {
    if profile == DirectRoutingPrivatePbxPoc then Inward else AnyInterface
  }

  function OutboundLeg(r: Route, profile: Profile, node: Node): Leg {
    var media := OutboundMedia(profile);
    Leg(PbxRuntime(r, profile, node), OfferLine(media), MediaHook(r, media), GenericFailureHook(r))
  }

  function InboundLeg(r: Route, profile: Profile, node: Node): Leg {
    var media := Opposite(OutboundMedia(profile));
    Leg(TeamsRuntime(profile, node), OfferLine(media), MediaHook(r, media), FailoverHook(r, profile))
  }

  function RuntimeReplies(r: Route, profile: Profile): Program {
    if profile == DirectRoutingPrivatePbxPoc then DirectedReplyRoutes(r) else GenericReplyRoute(r)
  }

  /** The route program of the source with only its destinations, media directions, hooks, reply routes
      and tail exchanged. */
  function RuntimeParts(r: Route, profile: Profile, node: Node): seq<Program> {
    Skeleton(r, SPELLED, OutboundLeg(r, profile, node), InboundLeg(r, profile, node),
      RuntimeReplies(r, profile), RuntimeTail(r, profile, node))
  }

  /** The one route whose rewriting is ambiguous. */
  predicate TargetsFirstHub(r: Route) {
    r.host == TEAMS_HUBS[0] && r.port == 5061
  }

  // ---------------------------------------------------------------- a pattern only meets lines of its kind

  predicate Scannable(pattern: Line) {
    && KindOf(pattern) in {Target, OfferKind, OnReply, OnFailure}
    && (KindOf(pattern) == Target ==> |pattern.words| > 1)
    && (KindOf(pattern) == OfferKind ==> |pattern.words| > 2)
    && (KindOf(pattern) in {OnReply, OnFailure} ==> |pattern.words| == 1)
  }

  lemma WithinSameKind(pattern: Line, l: Line)
    requires Scannable(pattern) && Within(pattern, l)
    ensures KindOf(l) == KindOf(pattern)
  {
    var n := |pattern.words| - 1;
    if n > 0 {
      assert pattern.words[..n][0] == l.words[..n][0];
      if n > 1 { assert pattern.words[..n][1] == l.words[..n][1]; }
    } else {
      var w := pattern.words[0];
      assert |w| > 5 && w[0] == l.words[0][0] && w[1] == l.words[0][1] && w[5] == l.words[0][5];
    }
  }

  lemma QuietElsewhere(parts: seq<Program>, pattern: Line)
    requires HasKinds(parts) && Scannable(pattern)
    ensures forall k | 0 <= k < 30 && KindOf(pattern) !in PartKinds(k) :: Quiet(parts[k], pattern)
  {
    hide PartKinds, KindOf, Within, Scannable;
    forall k | 0 <= k < 30 && KindOf(pattern) !in PartKinds(k) ensures Quiet(parts[k], pattern) {
      forall i | 0 <= i < |parts[k]| ensures !Within(pattern, parts[k][i]) {
        assert Only(parts[k], PartKinds(k));
        if Within(pattern, parts[k][i]) {
          WithinSameKind(pattern, parts[k][i]);
        }
      }
    }
  }

  // ---------------------------------------------------------------- the patterns apart

  const URI_REST := ";transport=tls\";"

  lemma UriText(h: string, p: string)
    ensures Uri(h, p) == "\"sip:" + (h + ":" + p) + URI_REST
  {
  }

  /** Where the text in front has no semicolon, one address begins another only if they are equal. */
  lemma {:induction false} EnclosedPrefix(start: string, a: string, b: string, end: string)
    requires ';' !in a && ';' !in b && end != "" && end[0] == ';' && start + a + end <= start + b + end
    ensures a == b
  {
    var u, v, n := start + a + end, start + b + end, |start|;
    assert u[n + |a|] == ';' && v[n + |b|] == ';';
    assert u[n + |a|] == v[n + |a|];
    assert forall i | 0 <= i < |b| :: v[n + i] == b[i];
    assert |u| <= |v|;
    assert |a| == |b|;
    assert a == u[n..n + |a|] && b == v[n..n + |b|];
  }

  lemma {:induction false} HostPortUnique(h: string, p: string, h': string, p': string)
    requires IsDigits(p) && IsDigits(p') && h + ":" + p == h' + ":" + p'
    ensures h == h' && p == p'
  {
    var a := h + ":" + p;
    TenantParser.NoColon(p);
    TenantParser.NoColon(p');
    TenantParser.LastIndexOf(h, ':', p);
    TenantParser.LastIndexOf(h', ':', p');
    hide TenantParser.LastIndex;
    assert h + [':'] + p == a == h' + [':'] + p';
    assert h == a[..|h|] && p == a[|h| + 1..] && h' == a[..|h'|] && p' == a[|h'| + 1..];
  }

  lemma NoSemicolon(h: string, p: string)
    requires ';' !in h && IsDigits(p)
    ensures ';' !in h + ":" + p
  {
    assert ';' !in p;
  }

  /** A rendered address begins another only if it is the same host and port. */
  lemma {:induction false} UriPrefix(h: string, p: string, h': string, p': string)
    requires ';' !in h && IsDigits(p) && ';' !in h' && IsDigits(p')
    ensures Uri(h, p) <= Uri(h', p') <==> h == h' && p == p'
  {
    UriText(h, p);
    UriText(h', p');
    NoSemicolon(h, p);
    NoSemicolon(h', p');
    var start := "\"sip:";
    hide Uri, IsDigits;
    if Uri(h, p) <= Uri(h', p') {
      EnclosedPrefix(start, h + ":" + p, h' + ":" + p', URI_REST);
      HostPortUnique(h, p, h', p');
    }
  }

  lemma DestinationsWithin(h: string, p: string, h': string, p': string)
    requires ';' !in h && IsDigits(p) && ';' !in h' && IsDigits(p')
    ensures Within(Destination(h, p), Destination(h', p')) <==> h == h' && p == p'
  {
    UriPrefix(h, p, h', p');
    hide Uri;
  }

  lemma HubIsPlain()
    ensures ';' !in TEAMS_HUBS[0] && ';' !in "10.20.1.4" && TEAMS_HUBS[0] != "10.20.1.4" && IsDigits("5061")
    ensures IsDigits("16061") && IsDigits("25061")
  {
    assert "sip.pstnhub.microsoft.com"[0] != "10.20.1.4"[0];
  }

  lemma OffersDiffer(i: Interfaces)
    requires i != AnyInterface
    ensures !Within(OfferLine(AnyInterface), OfferLine(i))
  {
    assert OfferLine(AnyInterface).words[..4][3] == "ICE=remove\"))";
    assert OfferLine(i).words[..4][3] == "ICE=remove";
  }

  lemma ReplyHooksDiffer(r: Route)
    ensures !Within(MediaHook(r, AnyInterface), MediaHook(r, Inward))
  {
    var start := "t_on_reply(\"VIVO_" + r.token;
    var a, b := start + "_MEDIA_REPLY" + "\");", start + "_TEAMS_TO_PBX_MEDIA_REPLY" + "\");";
    assert "t_on_reply(\"VIVO_" + (r.token + "_MEDIA_REPLY") + "\");" == a;
    assert "t_on_reply(\"VIVO_" + (r.token + "_TEAMS_TO_PBX_MEDIA_REPLY") + "\");" == b;
    assert a[|start| + 1] == 'M' && b[|start| + 1] == 'T';
  }

  // ---------------------------------------------------------------- each step on the parts

  lemma UpdateKinds(parts: seq<Program>, i: nat, part: Program)
    requires HasKinds(parts) && i < 30 && Only(part, PartKinds(i))
    ensures HasKinds(parts[i := part])
  {
    hide Only, PartKinds;
  }

  lemma PairReplaced(parts: seq<Program>, i: nat, j: nat, pattern: Line, first: Line, second: Line)
    requires HasKinds(parts) && Scannable(pattern) && i < j < 30
    requires forall k | 0 <= k < 30 :: KindOf(pattern) in PartKinds(k) <==> k == i || k == j
    requires parts[i] == [pattern] && parts[j] == [pattern]
    requires first.words != [] && second.words != [] && !Within(pattern, first)
    ensures ReplacePair(Flatten(parts), pattern, first, second) == Some(Flatten(parts[i := [first]][j := [second]]))
  {
    QuietElsewhere(parts, pattern);
    hide Flatten, PartKinds, KindOf, Within, Only, HasKinds, Scannable, Quiet;
    assert pattern.words != [] by { PatternHasWords(pattern); }
    CountTwo(parts, i, j, pattern);
    ReplacePart(parts, i, pattern, [first]);
    var parts' := parts[i := [first]];
    assert Quiet([first], pattern) by { QuietLine(pattern, first); }
    forall k | 0 <= k < j ensures Quiet(parts'[..j][k], pattern) {
      assert parts'[..j][k] == parts'[k];
    }
    ReplacePart(parts', j, pattern, [second]);
  }

  lemma PatternHasWords(pattern: Line)
    requires Scannable(pattern)
    ensures pattern.words != []
  {
  }

  lemma QuietLine(pattern: Line, l: Line)
    requires !Within(pattern, l)
    ensures Quiet([l], pattern)
  {
  }

  lemma PbxReplaced(parts: seq<Program>, pattern: Line, other: Line, replacement: Program)
    requires HasKinds(parts) && Scannable(pattern) && KindOf(pattern) == Target && Replacement(replacement)
    requires parts[8] == [pattern] && parts[20] == [other]
    ensures !Within(pattern, other) ==> Count(Flatten(parts), pattern) == 1
    ensures other == pattern ==> Count(Flatten(parts), pattern) == 2
    ensures ReplaceFirst(Flatten(parts), pattern, replacement) == Flatten(parts[8 := replacement])
  {
    QuietElsewhere(parts, pattern);
    hide Flatten, KindOf, Within, Only, HasKinds, Quiet;
    assert pattern.words != [];
    forall k | 0 <= k < 8 ensures Quiet(parts[..8][k], pattern) {
      assert parts[..8][k] == parts[k];
    }
    ReplacePart(parts, 8, pattern, replacement);
    if other == pattern {
      CountTwo(parts, 8, 20, pattern);
    }
    if !Within(pattern, other) {
      QuietLine(pattern, other);
      var after := parts[9..];
      forall k | 0 <= k < |after| ensures Quiet(after[k], pattern) {
        assert after[k] == parts[9 + k];
      }
      CountOne(parts, 8, pattern);
    }
  }

  lemma TeamsReplaced(parts: seq<Program>, pattern: Line, replacement: Program)
    requires HasKinds(parts) && Scannable(pattern) && KindOf(pattern) == Target && Replacement(replacement)
    requires Quiet(parts[8], pattern) && parts[20] == [pattern]
    ensures Count(Flatten(parts), pattern) == 1
    ensures ReplaceFirst(Flatten(parts), pattern, replacement) == Flatten(parts[20 := replacement])
  {
    QuietElsewhere(parts, pattern);
    hide Flatten, KindOf, Within, Only, HasKinds, Quiet;
    assert pattern.words != [];
    forall k | 0 <= k < 20 ensures Quiet(parts[..20][k], pattern) {
      assert parts[..20][k] == parts[k];
    }
    ReplacePart(parts, 20, pattern, replacement);
    var after := parts[21..];
    forall k | 0 <= k < |after| ensures Quiet(after[k], pattern) {
      assert after[k] == parts[21 + k];
    }
    CountOne(parts, 20, pattern);
  }

  lemma PbxRuntimeKinds(r: Route, profile: Profile, node: Node)
    ensures Only(PbxRuntime(r, profile, node), {Prose, Target})
  {
    EgressKinds(node, "15061", 4);
    hide Egress;
  }

  lemma TeamsRuntimeKinds(profile: Profile, node: Node)
    ensures Only(TeamsRuntime(profile, node), {Prose, Target})
  {
    EgressKinds(node, "5061", 4);
    hide Egress;
  }

  lemma EgressKinds(node: Node, port: string, indent: nat)
    ensures Only(Egress(node, port, indent), {Prose})
  {
  }

  lemma ProseIsQuiet(s: Program, pattern: Line)
    requires Only(s, {Prose}) && Scannable(pattern)
    ensures Quiet(s, pattern)
  {
    hide KindOf, Within;
    forall i | 0 <= i < |s| ensures !Within(pattern, s[i]) {
      if Within(pattern, s[i]) { WithinSameKind(pattern, s[i]); }
    }
  }

  /** The new PBX destination is not taken for the Teams destination. */
  lemma PbxRuntimeIsQuiet(r: Route, profile: Profile, node: Node)
    requires ';' !in r.host && !TargetsFirstHub(r)
    ensures Quiet(PbxRuntime(r, profile, node), TeamsDestination())
  {
    EgressKinds(node, "15061", 4);
    RouteLineKinds(TEAMS_HUBS[0], "5061", "");
    var domain, target, egress := [TlsDomain(r.host, 4)], [PbxTarget(r, profile)], Egress(node, "15061", 4);
    ProseIsQuiet(domain, TeamsDestination());
    ProseIsQuiet(egress, TeamsDestination());
    assert PbxRuntime(r, profile, node) == domain + target + egress;
    TargetsDiffer(r, profile);
    hide Within, Egress, PbxTarget, TeamsDestination, TlsDomain, Destination;
  }

  lemma TargetsDiffer(r: Route, profile: Profile)
    requires ';' !in r.host && !TargetsFirstHub(r)
    ensures !Within(TeamsDestination(), PbxTarget(r, profile))
  {
    HubIsPlain();
    match profile
    case SyntheticPrivate => DestinationsWithin(TEAMS_HUBS[0], "5061", "10.20.1.4", "16061");
    case DirectRoutingPrivatePbxPoc => DestinationsWithin(TEAMS_HUBS[0], "5061", "10.20.1.4", "5061");
    case DirectRouting =>
      DestinationsWithin(TEAMS_HUBS[0], "5061", r.host, Decimal(r.port));
      OnlyPort5061(r.port);
      hide Within, Destination, Decimal;
  }

  lemma OnlyPort5061(port: nat)
    ensures Decimal(port) == "5061" <==> port == 5061
  {
    Decimal5061();
    if Decimal(port) == "5061" { DecimalInjective(port, 5061); }
  }

  lemma DestinationsStep(parts: seq<Program>, r: Route, profile: Profile, node: Node)
    requires HasKinds(parts) && parts[8] == [PbxDestination(r)] && parts[20] == [TeamsDestination()] && ';' !in r.host
    ensures var parts' := parts[8 := PbxRuntime(r, profile, node)][20 := TeamsRuntime(profile, node)];
      && HasKinds(parts')
      && ReplaceDestinations(Flatten(parts), r, profile, node) == if TargetsFirstHub(r) then None else Some(Flatten(parts'))
  {
    RouteLineKinds(r.host, Decimal(r.port), "");
    RouteLineKinds(TEAMS_HUBS[0], "5061", "");
    HubIsPlain();
    OnlyPort5061(r.port);
    DestinationsWithin(r.host, Decimal(r.port), TEAMS_HUBS[0], "5061");
    assert Scannable(PbxDestination(r)) && Scannable(TeamsDestination());
    PbxReplaced(parts, PbxDestination(r), TeamsDestination(), PbxRuntime(r, profile, node));
    PbxRuntimeKinds(r, profile, node);
    TeamsRuntimeKinds(profile, node);
    var parts' := parts[8 := PbxRuntime(r, profile, node)];
    hide Flatten, KindOf, Within, Only, HasKinds, Quiet, Destination, Scannable, PbxRuntime, TeamsRuntime;
    UpdateKinds(parts, 8, PbxRuntime(r, profile, node));
    UpdateKinds(parts', 20, TeamsRuntime(profile, node));
    if !TargetsFirstHub(r) {
      PbxRuntimeIsQuiet(r, profile, node);
      TeamsReplaced(parts', TeamsDestination(), TeamsRuntime(profile, node));
    }
  }

  // ---------------------------------------------------------------- blocks and hooks

  /** No part of another kind holds the block's first line. */
  lemma HeadElsewhere(parts: seq<Program>, kinds: seq<set<Kind>>, head: Line)
    requires |kinds| == |parts| && forall k | 0 <= k < |parts| :: Only(parts[k], kinds[k]) && KindOf(head) !in kinds[k]
    ensures Absent(Flatten(parts), head)
  {
    hide KindOf;
    forall k | 0 <= k < |parts| ensures forall x | 0 <= x < |parts[k]| :: (l => l != head)(parts[k][x]) {
    }
    FlattenHolds(parts, l => l != head);
  }

  lemma BlockPart(parts: seq<Program>, i: nat, block: Program, replacement: Program)
    requires HasKinds(parts) && i < 30 && block != [] && parts[i] == block && Absent(block[1..], block[0])
    requires forall k | 0 <= k < 30 && k != i :: KindOf(block[0]) !in PartKinds(k)
    ensures CountBlock(Flatten(parts), block) == 1
    ensures ReplaceBlock(Flatten(parts), block, replacement) == Flatten(parts[i := replacement])
  {
    hide KindOf, Only, Flatten, PartKinds;
    var before, after := parts[..i], parts[i + 1..];
    HeadElsewhere(before, seq(i, k requires 0 <= k < i => PartKinds(k)), block[0]);
    HeadElsewhere(after, seq(29 - i, k requires 0 <= k < 29 - i => PartKinds(i + 1 + k)), block[0]);
    hide HasKinds;
    BlockOnce(Flatten(before), block, Flatten(after), replacement);
    hide Absent;
    FlattenAround(parts, i);
    var parts' := parts[i := replacement];
    FlattenAround(parts', i);
    assert parts'[..i] == before && parts'[i + 1..] == after;
    Reassociate(Flatten(before), block, Flatten(after));
    Reassociate(Flatten(before), replacement, Flatten(after));
  }

  lemma Reassociate(a: Program, b: Program, c: Program)
    ensures a + b + c == a + (b + c)
  {
  }

  lemma {:induction false} FindIs(s: Program, a: Program, l: Line, z: Program, pattern: Line, start: nat)
    requires s == a + [l] + z && start <= |a| && Within(pattern, l)
    requires forall i | start <= i < |a| :: !Within(pattern, a[i])
    ensures Find(s, pattern, start) == |a|
  {
    assert s[|a|] == l;
    assert forall i | 0 <= i < |a| :: s[i] == a[i];
  }

  lemma {:induction false} FindNone(s: Program, a: Program, z: Program, pattern: Line)
    requires s == a + z && Quiet(z, pattern)
    ensures Find(s, pattern, |a|) == |s|
  {
    assert forall i | |a| <= i < |s| :: s[i] == z[i - |a|];
  }

  /** Where a line that occurs twice is found, first, again, and no more. */
  lemma TwoFinds(a: Program, hook: Line, b: Program, z: Program)
    requires Within(hook, hook) && Quiet(a, hook) && Quiet(b, hook) && Quiet(z, hook)
    ensures var s, second := a + [hook] + b + [hook] + z, |a| + 1 + |b|;
      && |s| == second + 1 + |z| && s[second] == hook && s[..second] == a + [hook] + b && s[second + 1..] == z
      && Find(s, hook, 0) == |a| && Find(s, hook, |a| + 1) == second && Find(s, hook, second + 1) == |s|
  {
    var s := a + [hook] + b + [hook] + z;
    var upto := a + [hook] + b;
    hide Within;
    FindIs(s, a, hook, b + [hook] + z, hook, 0);
    forall i | |a| + 1 <= i < |upto| ensures !Within(hook, upto[i]) {
      assert upto[i] == b[i - |a| - 1];
    }
    FindIs(s, upto, hook, z, hook, |a| + 1);
    FindNone(s, upto + [hook], z, hook);
  }

  lemma SecondHookReplaced(a: Program, hook: Line, b: Program, z: Program, r: Route, profile: Profile)
    requires hook == GenericFailureHook(r) && Quiet(a, hook) && Quiet(b, hook) && Quiet(z, hook)
    ensures ReplaceSecondHook(a + [hook] + b + [hook] + z, r, profile) == Some(a + [hook] + b + [FailoverHook(r, profile)] + z)
  {
    var failover := FailoverHook(r, profile);
    assert hook.words != [] && failover.words != [];
    SpliceWhole(hook, [failover]);
    hide GenericFailureHook, FailureHook, FailoverHook, Splice, Within, Quiet, Find;
    TwoFinds(a, hook, b, z);
  }

  lemma HookStep(parts: seq<Program>, r: Route, profile: Profile)
    requires HasKinds(parts)
    requires parts[13] == [GenericFailureHook(r)] && parts[25] == parts[13]
    ensures ReplaceSecondHook(Flatten(parts), r, profile) == Some(Flatten(parts[25 := [FailoverHook(r, profile)]]))
    ensures HasKinds(parts[25 := [FailoverHook(r, profile)]])
  {
    var hook, failover := GenericFailureHook(r), FailoverHook(r, profile);
    HookKinds(r.token + "_MEDIA_FAILURE");
    HookKinds(r.token + if Live(profile) then "_TEAMS_FAILOVER" else "_MEDIA_FAILURE");
    assert Only([failover], {OnFailure});
    QuietElsewhere(parts, hook);
    hide KindOf, Only, Flatten, FailureHook, FailoverHook, Quiet, Within;
    UpdateKinds(parts, 25, [failover]);
    hide HasKinds, PartKinds;
    var a, b, z := parts[..13], parts[14..25], parts[26..];
    AllQuiet(parts, 0, 13, hook);
    AllQuiet(parts, 14, 25, hook);
    AllQuiet(parts, 26, 30, hook);
    assert parts[0..13] == a && parts[26..30] == z;
    QuietFlatten(a, hook);
    QuietFlatten(b, hook);
    QuietFlatten(z, hook);
    SecondHookReplaced(Flatten(a), hook, Flatten(b), Flatten(z), r, profile);
    SplitAtTwo(parts, 13, 25);
    var parts' := parts[25 := [failover]];
    SplitAtTwo(parts', 13, 25);
    assert parts'[..13] == a && parts'[14..25] == b && parts'[26..] == z;
  }

  lemma AllQuiet(parts: seq<Program>, low: nat, high: nat, pattern: Line)
    requires low <= high <= |parts| && forall k | low <= k < high :: Quiet(parts[k], pattern)
    ensures QuietParts(parts[low..high], pattern)
  {
  }

  lemma SplitAtTwo(parts: seq<Program>, i: nat, j: nat)
    requires i < j < |parts|
    ensures Flatten(parts) == Flatten(parts[..i]) + parts[i] + Flatten(parts[i + 1..j]) + parts[j] + Flatten(parts[j + 1..])
  {
    hide Flatten;
    FlattenAround(parts, i);
    var rest, m := parts[i + 1..], j - i - 1;
    FlattenAround(rest, m);
    assert rest[..m] == parts[i + 1..j] && rest[m] == parts[j] && rest[m + 1..] == parts[j + 1..];
    FourWay(Flatten(parts[..i]) + parts[i], Flatten(rest[..m]), parts[j], Flatten(rest[m + 1..]));
  }

  lemma FourWay(a: Program, b: Program, c: Program, d: Program)
    ensures a + (b + c + d) == a + b + c + d
  {
  }

  lemma TailStep(parts: seq<Program>, r: Route, profile: Profile, node: Node)
    requires HasKinds(parts) && parts[29] == FailureRoute(r.token)
    ensures CountBlock(Flatten(parts), FailureRoute(r.token)) == 1
    ensures ReplaceBlock(Flatten(parts), FailureRoute(r.token), RuntimeTail(r, profile, node))
      == Flatten(parts[29 := RuntimeTail(r, profile, node)])
  {
    var block := FailureRoute(r.token);
    FailureRouteHead(r.token);
    hide KindOf, FailureRoute, RuntimeTail, HasKinds, Flatten, Absent, Only;
    BlockPart(parts, 29, block, RuntimeTail(r, profile, node));
  }

  lemma FailureRouteHead(token: string)
    ensures var block := FailureRoute(token); block != [] && KindOf(block[0]) == FailureHead && Absent(block[1..], block[0])
  {
    FailureRouteKinds(token);
    hide KindOf;
    HeadNotAgain(FailureRoute(token), {Prose});
  }

  lemma HeadNotAgain(block: Program, kinds: set<Kind>)
    requires block != [] && Only(block[1..], kinds) && KindOf(block[0]) !in kinds
    ensures Absent(block[1..], block[0])
  {
    hide KindOf;
  }

  lemma MediaReplyRouteKinds(r: Route, offer: Interfaces)
    ensures var block := MediaReplyRoute(r, offer);
      && Only(block, {Prose, AnswerKind, ReplyHead})
      && block != [] && KindOf(block[0]) == ReplyHead && Absent(block[1..], block[0])
  {
    var block := MediaReplyRoute(r, offer);
    ReplyRouteKinds(r.token, r.token + ReplyName(offer), Flags(Opposite(offer)));
    assert block != [];
    hide ReplyRoute, KindOf;
    HeadNotAgain(block, {Prose, AnswerKind});
    HeadAndRest(block, ReplyHead, {Prose, AnswerKind});
    assert {ReplyHead} + {Prose, AnswerKind} == {Prose, AnswerKind, ReplyHead};
  }

  lemma DirectedKinds(r: Route)
    ensures Only(DirectedReplyRoutes(r), {Prose, AnswerKind, ReplyHead})
  {
    MediaReplyRouteKinds(r, Inward);
    MediaReplyRouteKinds(r, Outward);
    assert KindOf(BLANK) == Prose;
    hide KindOf, MediaReplyRoute;
  }

  lemma ReplyRoutesStep(parts: seq<Program>, r: Route)
    requires HasKinds(parts) && parts[27] == GenericReplyRoute(r)
    ensures CountBlock(Flatten(parts), GenericReplyRoute(r)) == 1
    ensures ReplaceBlock(Flatten(parts), GenericReplyRoute(r), DirectedReplyRoutes(r)) == Flatten(parts[27 := DirectedReplyRoutes(r)])
    ensures HasKinds(parts[27 := DirectedReplyRoutes(r)])
  {
    hide KindOf, MediaReplyRoute;
    MediaReplyRouteKinds(r, AnyInterface);
    DirectedKinds(r);
    var block := GenericReplyRoute(r);
    assert block == MediaReplyRoute(r, AnyInterface);
    hide GenericReplyRoute, DirectedReplyRoutes, Flatten, Absent, Only;
    UpdateKinds(parts, 27, DirectedReplyRoutes(r));
    hide HasKinds;
    BlockPart(parts, 27, block, DirectedReplyRoutes(r));
  }

  lemma OfferShape(i: Interfaces)
    ensures var l := OfferLine(i); KindOf(l) == OfferKind && Scannable(l) && l.words != []
  {
    MediaCallKinds(Flags(i));
  }

  lemma MediaHookShape(r: Route, i: Interfaces)
    ensures var l := MediaHook(r, i); KindOf(l) == OnReply && Scannable(l) && l.words != []
  {
    HookKinds(r.token + ReplyName(i));
  }

  /** The generic line in both directions' places becomes one line in the first and another in the second. */
  function TwoLines(parts: seq<Program>, i: nat, j: nat, first: Line, second: Line): (r: seq<Program>)
    requires |parts| == 30 && i < j < 30
    ensures |r| == 30
  {
    parts[i := [first]][j := [second]]
  }

  function DirectedParts(parts: seq<Program>, r: Route): (q: seq<Program>)
    requires |parts| == 30
    ensures |q| == 30
  {
    TwoLines(TwoLines(parts, 10, 22, OfferLine(Inward), OfferLine(Outward)), 12, 24, MediaHook(r, Inward), MediaHook(r, Outward))
    [27 := DirectedReplyRoutes(r)]
  }

  lemma OffersStep(parts: seq<Program>)
    requires HasKinds(parts) && parts[10] == [OfferLine(AnyInterface)] && parts[22] == parts[10]
    ensures var offers := TwoLines(parts, 10, 22, OfferLine(Inward), OfferLine(Outward));
      && HasKinds(offers)
      && ReplacePair(Flatten(parts), OfferLine(AnyInterface), OfferLine(Inward), OfferLine(Outward)) == Some(Flatten(offers))
  {
    OffersDiffer(Inward);
    OfferShape(AnyInterface);
    OfferShape(Inward);
    OfferShape(Outward);
    hide OfferLine, KindOf, Within, Scannable, Flatten, HasKinds, ReplacePair;
    assert forall k | 0 <= k < 30 :: OfferKind in PartKinds(k) <==> k == 10 || k == 22;
    PairReplaced(parts, 10, 22, OfferLine(AnyInterface), OfferLine(Inward), OfferLine(Outward));
    TwoUpdates(parts, 10, 22, OfferLine(Inward), OfferLine(Outward));
  }

  lemma HooksStep(parts: seq<Program>, r: Route)
    requires HasKinds(parts) && parts[12] == [MediaHook(r, AnyInterface)] && parts[24] == parts[12]
    ensures var hooks := TwoLines(parts, 12, 24, MediaHook(r, Inward), MediaHook(r, Outward));
      && HasKinds(hooks)
      && ReplacePair(Flatten(parts), MediaHook(r, AnyInterface), MediaHook(r, Inward), MediaHook(r, Outward)) == Some(Flatten(hooks))
  {
    ReplyHooksDiffer(r);
    MediaHookShape(r, AnyInterface);
    MediaHookShape(r, Inward);
    MediaHookShape(r, Outward);
    hide MediaHook, KindOf, Within, Scannable, Flatten, HasKinds, ReplacePair;
    assert forall k | 0 <= k < 30 :: OnReply in PartKinds(k) <==> k == 12 || k == 24;
    PairReplaced(parts, 12, 24, MediaHook(r, AnyInterface), MediaHook(r, Inward), MediaHook(r, Outward));
    TwoUpdates(parts, 12, 24, MediaHook(r, Inward), MediaHook(r, Outward));
  }

  /** The private-PBX profile gives each direction its own media interfaces and reply route. */
  lemma MediaStep(parts: seq<Program>, r: Route)
    requires HasKinds(parts) && parts[10] == [OfferLine(AnyInterface)] && parts[22] == parts[10]
    requires parts[12] == [MediaHook(r, AnyInterface)] && parts[24] == parts[12]
    requires parts[27] == GenericReplyRoute(r)
    ensures DirectMedia(Flatten(parts), r) == Some(Flatten(DirectedParts(parts, r))) && HasKinds(DirectedParts(parts, r))
  {
    assert |parts| == 30;
    hide OfferLine, MediaHook, Flatten, HasKinds, GenericReplyRoute, DirectedReplyRoutes, ReplacePair;
    OffersStep(parts);
    var offers := TwoLines(parts, 10, 22, OfferLine(Inward), OfferLine(Outward));
    HooksStep(offers, r);
    ReplyRoutesStep(TwoLines(offers, 12, 24, MediaHook(r, Inward), MediaHook(r, Outward)), r);
  }

  lemma TwoUpdates(parts: seq<Program>, i: nat, j: nat, a: Line, b: Line)
    requires HasKinds(parts) && i < 30 && j < 30 && KindOf(a) in PartKinds(i) && KindOf(b) in PartKinds(j)
    ensures HasKinds(parts[i := [a]][j := [b]])
  {
    hide KindOf, PartKinds;
    assert Only([a], PartKinds(i)) && Only([b], PartKinds(j));
    UpdateKinds(parts, i, [a]);
    UpdateKinds(parts[i := [a]], j, [b]);
  }

  // ---------------------------------------------------------------- the rewriting as a whole

  /** Where the parts that change sit in a route program. */
  lemma SkeletonParts(r: Route, toPbx: Leg, toTeams: Leg, replies: Program, tail: Program)
    ensures var parts := Skeleton(r, SPELLED, toPbx, toTeams, replies, tail);
      && |parts| == 30
      && parts[8] == toPbx.destination && parts[20] == toTeams.destination
      && parts[10] == [toPbx.offer] && parts[22] == [toTeams.offer]
      && parts[12] == [toPbx.reply] && parts[24] == [toTeams.reply]
      && parts[13] == [toPbx.failure] && parts[25] == [toTeams.failure]
      && parts[27] == replies && parts[29] == tail
  {
    hide Title, SignedLines, Socket, Ingress, MethodTest, PrefixTest, NoRoute, SyntheticStart, BeforeMedia, AfterMedia, Relay;
  }

  /** Programs with the same route differ in those parts alone. */
  lemma SkeletonRest(r: Route, a: seq<Program>, toPbx: Leg, toTeams: Leg, replies: Program, tail: Program,
                     toPbx': Leg, toTeams': Leg, replies': Program, tail': Program)
    requires a == Skeleton(r, SPELLED, toPbx, toTeams, replies, tail)
    ensures var b := Skeleton(r, SPELLED, toPbx', toTeams', replies', tail');
      |a| == |b| == 30 && forall k | 0 <= k < 30 && k !in {8, 20, 10, 22, 12, 24, 13, 25, 27, 29} :: a[k] == b[k]
  {
    hide Title, SignedLines, Socket, Ingress, MethodTest, PrefixTest, NoRoute, SyntheticStart, BeforeMedia, AfterMedia, Relay;
  }

  lemma GenericPartsAt(r: Route)
    ensures var parts := GenericParts(r, SPELLED, TEAMS_HUBS[0]);
      && |parts| == 30
      && parts[8] == [PbxDestination(r)] && parts[20] == [TeamsDestination()]
      && parts[10] == [OfferLine(AnyInterface)] && parts[22] == [OfferLine(AnyInterface)]
      && parts[12] == [MediaHook(r, AnyInterface)] && parts[24] == parts[12]
      && parts[13] == [GenericFailureHook(r)] && parts[25] == parts[13]
      && parts[27] == GenericReplyRoute(r) && parts[29] == FailureRoute(r.token)
  {
    hide Skeleton, ReplyRoute, FailureRoute, Destination, ReplyHook, FailureHook, Decimal, Offer;
    SkeletonParts(r, GenericLeg(r.token, Destination(r.host, Decimal(r.port))), GenericLeg(r.token, Destination(TEAMS_HUBS[0], SPELLED.teamsPort)),
      ReplyRoute(r.token, r.token + "_MEDIA_REPLY", ANY_INTERFACE), FailureRoute(r.token));
  }

  /** The parts that the steps of the rewriting produce, one after the other. */
  function Routed(r: Route, profile: Profile, node: Node): (parts: seq<Program>)
    ensures |parts| == 30
  {
    GenericPartsAt(r);
    GenericParts(r, SPELLED, TEAMS_HUBS[0])[8 := PbxRuntime(r, profile, node)][20 := TeamsRuntime(profile, node)]
  }

  function Directed(r: Route, profile: Profile, node: Node): (parts: seq<Program>)
    ensures |parts| == 30
  {
    var parts := Routed(r, profile, node);
    if profile == DirectRoutingPrivatePbxPoc then DirectedParts(parts, r) else parts
  }

  function Finished(parts: seq<Program>, hook: Line, tail: Program): seq<Program>
    requires |parts| == 30
  {
    parts[25 := [hook]][29 := tail]
  }

  lemma DirectedAt(r: Route, profile: Profile, node: Node)
    ensures var generic, parts, media := GenericParts(r, SPELLED, TEAMS_HUBS[0]), Directed(r, profile, node), OutboundMedia(profile);
      && |generic| == 30
      && parts[8] == PbxRuntime(r, profile, node) && parts[20] == TeamsRuntime(profile, node)
      && parts[10] == [OfferLine(media)] && parts[22] == [OfferLine(Opposite(media))]
      && parts[12] == [MediaHook(r, media)] && parts[24] == [MediaHook(r, Opposite(media))]
      && parts[27] == RuntimeReplies(r, profile)
      && parts[13] == [GenericFailureHook(r)] && parts[25] == parts[13] && parts[29] == FailureRoute(r.token)
      && forall k | 0 <= k < 30 && k !in {8, 20, 10, 22, 12, 24, 13, 25, 27, 29} :: parts[k] == generic[k]
  {
    GenericPartsAt(r);
    hide GenericParts, OfferLine, MediaHook, GenericFailureHook, FailureRoute, GenericReplyRoute, DirectedReplyRoutes, PbxRuntime, TeamsRuntime,
      PbxDestination, TeamsDestination;
  }

  lemma RewrittenIsRuntime(r: Route, profile: Profile, node: Node)
    ensures Finished(Directed(r, profile, node), FailoverHook(r, profile), RuntimeTail(r, profile, node)) == RuntimeParts(r, profile, node)
  {
    DirectedAt(r, profile, node);
    hide Directed, Skeleton, PbxRuntime, TeamsRuntime, RuntimeTail, GenericReplyRoute, DirectedReplyRoutes, MediaHook, OfferLine,
      GenericFailureHook, FailoverHook, ReplyRoute, FailureRoute, GenericLeg, Destination, Decimal, OutboundMedia, Opposite, RuntimeReplies;
    var outbound, inbound := OutboundLeg(r, profile, node), InboundLeg(r, profile, node);
    SkeletonParts(r, outbound, inbound, RuntimeReplies(r, profile), RuntimeTail(r, profile, node));
    SkeletonRest(r, GenericParts(r, SPELLED, TEAMS_HUBS[0]), GenericLeg(r.token, Destination(r.host, Decimal(r.port))),
      GenericLeg(r.token, Destination(TEAMS_HUBS[0], SPELLED.teamsPort)),
      ReplyRoute(r.token, r.token + "_MEDIA_REPLY", ANY_INTERFACE), FailureRoute(r.token),
      outbound, inbound, RuntimeReplies(r, profile), RuntimeTail(r, profile, node));
    hide GenericParts;
  }

  lemma RoutedStage(r: Route, profile: Profile, node: Node)
    requires ';' !in r.host
    ensures HasKinds(Routed(r, profile, node))
    ensures ReplaceDestinations(Flatten(GenericParts(r, SPELLED, TEAMS_HUBS[0])), r, profile, node)
      == if TargetsFirstHub(r) then None else Some(Flatten(Routed(r, profile, node)))
  {
    GenericHasKinds(r, SPELLED, TEAMS_HUBS[0]);
    GenericPartsAt(r);
    hide *;
    hide GenericParts, HasKinds, Flatten;
    DestinationsStep(GenericParts(r, SPELLED, TEAMS_HUBS[0]), r, profile, node);
    assert Routed(r, profile, node) == GenericParts(r, SPELLED, TEAMS_HUBS[0])[8 := PbxRuntime(r, profile, node)][20 := TeamsRuntime(profile, node)]
      by { RoutedIs(r, profile, node); }
  }

  lemma RoutedIs(r: Route, profile: Profile, node: Node)
    ensures |GenericParts(r, SPELLED, TEAMS_HUBS[0])| == 30
    ensures Routed(r, profile, node)
      == GenericParts(r, SPELLED, TEAMS_HUBS[0])[8 := PbxRuntime(r, profile, node)][20 := TeamsRuntime(profile, node)]
  {
    GenericPartsAt(r);
    hide GenericParts;
  }

  lemma DirectedStage(r: Route, profile: Profile, node: Node)
    requires HasKinds(Routed(r, profile, node))
    ensures HasKinds(Directed(r, profile, node))
    ensures var routed := Flatten(Routed(r, profile, node));
      (if profile == DirectRoutingPrivatePbxPoc then DirectMedia(routed, r) else Some(routed)) == Some(Flatten(Directed(r, profile, node)))
  {
    GenericPartsAt(r);
    hide HasKinds, Flatten, GenericParts, DirectMedia, OfferLine, MediaHook, GenericFailureHook, FailureRoute, GenericReplyRoute,
      DirectedReplyRoutes, DirectedParts, PbxRuntime, TeamsRuntime, PbxDestination, TeamsDestination;
    if profile == DirectRoutingPrivatePbxPoc {
      MediaStep(Routed(r, profile, node), r);
    }
  }

  lemma TailStage(r: Route, profile: Profile, node: Node)
    requires HasKinds(Directed(r, profile, node))
    ensures var hooked := ReplaceSecondHook(Flatten(Directed(r, profile, node)), r, profile);
      && hooked.Some? && CountBlock(hooked.value, FailureRoute(r.token)) == 1
      && ReplaceBlock(hooked.value, FailureRoute(r.token), RuntimeTail(r, profile, node))
         == Flatten(Finished(Directed(r, profile, node), FailoverHook(r, profile), RuntimeTail(r, profile, node)))
  {
    DirectedAt(r, profile, node);
    hide Directed, HasKinds, Flatten, GenericFailureHook, FailoverHook, FailureRoute, RuntimeTail, ReplaceSecondHook;
    var parts := Directed(r, profile, node);
    HookStep(parts, r, profile);
    TailStep(parts[25 := [FailoverHook(r, profile)]], r, profile, node);
  }

  lemma LaterStages(r: Route, profile: Profile, node: Node)
    requires HasKinds(Routed(r, profile, node))
    ensures DirectAndFinish(Flatten(Routed(r, profile, node)), r, profile, node) == Some(Flatten(RuntimeParts(r, profile, node)))
  {
    DirectedStage(r, profile, node);
    TailStage(r, profile, node);
    RewrittenIsRuntime(r, profile, node);
    hide HasKinds, Flatten, GenericParts, RuntimeParts, DirectMedia, ReplaceSecondHook, CountBlock, ReplaceBlock,
      Routed, Directed, Finished, FailureRoute, RuntimeTail, FailoverHook;
  }

  /** No step of the rewriting can fail as ambiguous, except for a PBX that is the first Teams hub itself;
      and the result is the signed program with the listed parts exchanged and nothing else. */
  lemma RewritingIsTotalAndExact(r: Route, profile: Profile, node: Node)
    requires Renderable(r) && ';' !in r.host
    ensures RuntimeFragment(r, profile, node) == if TargetsFirstHub(r) then None else Some(Flatten(RuntimeParts(r, profile, node)))
  {
    RoutedStage(r, profile, node);
    LaterStages(r, profile, node);
    hide HasKinds, Flatten, GenericParts, RuntimeParts, ReplaceDestinations, DirectAndFinish, Routed, TargetsFirstHub;
  }

  method RewriteDestinations(compiled: Program, r: Route, profile: Profile, node: Node) returns (result: Option<Program>)
    ensures result == ReplaceDestinations(compiled, r, profile, node)
  {
    assert Replacement(PbxRuntime(r, profile, node)) && Replacement(TeamsRuntime(profile, node));
    hide Count, ReplaceFirst, PbxRuntime, TeamsRuntime, PbxDestination, TeamsDestination, Replacement;
    var source := compiled;
    if Count(source, PbxDestination(r)) != 1 { return None; }
    source := ReplaceFirst(source, PbxDestination(r), PbxRuntime(r, profile, node));
    if Count(source, TeamsDestination()) != 1 { return None; }
    source := ReplaceFirst(source, TeamsDestination(), TeamsRuntime(profile, node));
    result := Some(source);
  }

  method RewriteMedia(routed: Program, r: Route) returns (result: Option<Program>)
    ensures result == DirectMedia(routed, r)
  {
    assert OfferLine(Inward).words != [] && OfferLine(Outward).words != [];
    assert MediaHook(r, Inward).words != [] && MediaHook(r, Outward).words != [];
    hide ReplacePair, OfferLine, MediaHook, GenericReplyRoute, DirectedReplyRoutes, CountBlock, ReplaceBlock;
    var offers := ReplacePair(routed, OfferLine(AnyInterface), OfferLine(Inward), OfferLine(Outward));
    if offers == None { return None; }
    var hooks := ReplacePair(offers.value, MediaHook(r, AnyInterface), MediaHook(r, Inward), MediaHook(r, Outward));
    if hooks == None { return None; }
    if CountBlock(hooks.value, GenericReplyRoute(r)) != 1 { return None; }
    result := Some(ReplaceBlock(hooks.value, GenericReplyRoute(r), DirectedReplyRoutes(r)));
  }

  method RewriteTail(directed: Program, r: Route, profile: Profile, node: Node) returns (result: Option<Program>)
    ensures result ==
      match ReplaceSecondHook(directed, r, profile)
      case None => None
      case Some(hooked) =>
        if CountBlock(hooked, FailureRoute(r.token)) != 1 then None
        else Some(ReplaceBlock(hooked, FailureRoute(r.token), RuntimeTail(r, profile, node)))
  {
    hide ReplaceSecondHook, FailureRoute, RuntimeTail, CountBlock, ReplaceBlock;
    var hooked := ReplaceSecondHook(directed, r, profile);
    if hooked == None { return None; }
    if CountBlock(hooked.value, FailureRoute(r.token)) != 1 { return None; }
    result := Some(ReplaceBlock(hooked.value, FailureRoute(r.token), RuntimeTail(r, profile, node)));
  }

  /** The rewriting as it is carried out: one program text, replaced piece by piece, until it is done or a
      count shows that a piece is ambiguous. */
  method RuntimeTenantFragment(r: Route, profile: Profile, node: Node) returns (result: Option<Program>)
    ensures result == RuntimeFragment(r, profile, node)
  {
    hide CompilerFragment, ReplaceDestinations, DirectMedia, ReplaceSecondHook, FailureRoute, RuntimeTail, CountBlock, ReplaceBlock;
    result := CompilerFragment(r);
    if result == None { return; }
    result := RewriteDestinations(result.value, r, profile, node);
    if result == None { return; }
    if profile == DirectRoutingPrivatePbxPoc {
      result := RewriteMedia(result.value, r);
      if result == None { return; }
    }
    result := RewriteTail(result.value, r, profile, node);
  }

  /** Every route the parser accepts is rewritten for every profile. */
  lemma AcceptedRoutesAreRewritten(raw: Program, facts: TenantParser.Expected, profile: Profile, node: Node)
    requires TenantParser.Parse(raw, facts).Some?
    ensures var r := TenantParser.Parse(raw, facts).value;
      RuntimeFragment(r, profile, node) == Some(Flatten(RuntimeParts(r, profile, node)))
  {
    var r := TenantParser.Parse(raw, facts).value;
    TenantParser.ParseAcceptsOnlyCanonical(raw, facts);
    hide TenantParser.Parse, CompilerRenderer.RenderOpensips, RuntimeFragment, RuntimeParts, Flatten;
    StrictHostChars(r.host);
    hide StrictHost;
    assert TEAMS_HUBS[0] in TEAMS_HUBS;
    RewritingIsTotalAndExact(r, profile, node);
  }

  // ---------------------------------------------------------------- where each target ends up

  /** A line that sets a destination. */
  function TargetLine(l: Line): Option<Line> {
    if KindOf(l) == Target then Some(l) else None
  }

  lemma {:induction false} NoTargets(s: Program)
    requires Only(s, {Prose})
    ensures TenantParser.FindAll(s, TargetLine) == []
  {
    TenantParser.FindAllSilent(s, TargetLine);
  }

  lemma {:induction false} OneTarget(a: Program, target: Line, b: Program)
    requires Only(a, {Prose}) && KindOf(target) == Target && Only(b, {Prose})
    ensures TenantParser.FindAll(a + [target] + b, TargetLine) == [target]
  {
    NoTargets(a);
    NoTargets(b);
    TenantParser.FindOneLine(target, TargetLine);
    TenantParser.FindAllConcat(a + [target], b, TargetLine);
    TenantParser.FindAllConcat(a, [target], TargetLine);
    hide TenantParser.FindAll;
  }

  lemma PbxRuntimeTarget(r: Route, profile: Profile, node: Node)
    ensures TenantParser.FindAll(PbxRuntime(r, profile, node), TargetLine) == [PbxTarget(r, profile)]
  {
    RouteLineKinds(r.host, Decimal(r.port), "");
    RouteLineKinds("10.20.1.4", "16061", "");
    RouteLineKinds("10.20.1.4", "5061", "");
    EgressKinds(node, "15061", 4);
    assert Only([TlsDomain(r.host, 4)], {Prose});
    hide Egress, Destination, TlsDomain, KindOf, Decimal;
    OneTarget([TlsDomain(r.host, 4)], PbxTarget(r, profile), Egress(node, "15061", 4));
  }

  lemma TeamsRuntimeTarget(profile: Profile, node: Node)
    ensures TenantParser.FindAll(TeamsRuntime(profile, node), TargetLine) == [TeamsTarget(profile)]
  {
    RouteLineKinds(TEAMS_HUBS[0], "5061", "");
    RouteLineKinds("10.20.1.4", "25061", "");
    EgressKinds(node, "5061", 4);
    var before := if profile == SyntheticPrivate then [TlsDomain("10.20.1.4", 4)] else [HubCounter("1", 4), TlsDomain(TEAMS_HUBS[0], 4)];
    assert Only(before, {Prose});
    hide Egress, Destination, TlsDomain, HubCounter, KindOf;
    OneTarget(before, TeamsTarget(profile), Egress(node, "5061", 4));
  }

  lemma {:induction false} DirectionTargets(parts: seq<Program>)
    requires |parts| == 12 && forall i | 0 <= i < 12 :: Only(parts[i], DirectionKinds(i))
    ensures TenantParser.FindAll(Flatten(parts), TargetLine) == TenantParser.FindAll(parts[5], TargetLine)
  {
    hide TenantParser.FindAll, Flatten;
    forall i | 0 <= i < 12 && i != 5 ensures TenantParser.FindAll(parts[i], TargetLine) == [] {
      assert Only(parts[i], DirectionKinds(i));
      TenantParser.FindAllSilent(parts[i], TargetLine);
    }
    TenantParser.FindInTwo(parts, 0, 5, TargetLine);
  }

  /** The PBX is the only destination of the route from Teams, and Teams the only one of the route from
      the PBX. */
  lemma DirectionsAreKept(r: Route, profile: Profile, node: Node)
    ensures var outbound, inbound := OutboundLeg(r, profile, node), InboundLeg(r, profile, node);
      && TenantParser.FindAll(Flatten(Outbound(r, SPELLED, outbound)), TargetLine) == [PbxTarget(r, profile)]
      && TenantParser.FindAll(Flatten(Inbound(r, SPELLED, inbound)), TargetLine) == [TeamsTarget(profile)]
  {
    PbxRuntimeKinds(r, profile, node);
    TeamsRuntimeKinds(profile, node);
    PbxRuntimeTarget(r, profile, node);
    TeamsRuntimeTarget(profile, node);
    OfferShape(OutboundMedia(profile));
    OfferShape(Opposite(OutboundMedia(profile)));
    MediaHookShape(r, OutboundMedia(profile));
    MediaHookShape(r, Opposite(OutboundMedia(profile)));
    FailureHookKinds(r, profile);
    hide PbxRuntime, TeamsRuntime, OfferLine, MediaHook, GenericFailureHook, FailoverHook, KindOf, Only, Scannable, OutboundMedia, Opposite, Flatten,
      DirectionKinds, PbxTarget, TeamsTarget;
    hide TenantParser.FindAll;
    var outbound, inbound := OutboundLeg(r, profile, node), InboundLeg(r, profile, node);
    DirectionHasKinds(r.token, r.prefix, "_TEAMS_TO_PBX", "5061", "TEAMS_FIXTURE_TO_PBX_FIXTURE", outbound);
    DirectionHasKinds(r.token, r.prefix, "_PBX_TO_TEAMS", "15061", "PBX_FIXTURE_TO_TEAMS_FIXTURE", inbound);
    DestinationPart(r, outbound, inbound);
    hide Outbound, Inbound, Direction;
    DirectionTargets(Outbound(r, SPELLED, outbound));
    DirectionTargets(Inbound(r, SPELLED, inbound));
  }

  lemma FailureHookKinds(r: Route, profile: Profile)
    ensures KindOf(GenericFailureHook(r)) == OnFailure && KindOf(FailoverHook(r, profile)) == OnFailure
  {
    HookKinds(r.token + "_MEDIA_FAILURE");
    HookKinds(r.token + if Live(profile) then "_TEAMS_FAILOVER" else "_MEDIA_FAILURE");
    hide FailureHook, KindOf;
  }

  lemma DestinationPart(r: Route, outbound: Leg, inbound: Leg)
    ensures |Outbound(r, SPELLED, outbound)| == 12 && Outbound(r, SPELLED, outbound)[5] == outbound.destination
    ensures Outbound(r, SPELLED, outbound) == Direction(r.token, r.prefix, "_TEAMS_TO_PBX", "5061", "TEAMS_FIXTURE_TO_PBX_FIXTURE", outbound)
    ensures |Inbound(r, SPELLED, inbound)| == 12 && Inbound(r, SPELLED, inbound)[5] == inbound.destination
    ensures Inbound(r, SPELLED, inbound) == Direction(r.token, r.prefix, "_PBX_TO_TEAMS", "15061", "PBX_FIXTURE_TO_TEAMS_FIXTURE", inbound)
  {
    hide Ingress, MethodTest, PrefixTest, NoRoute, SyntheticStart, BeforeMedia, AfterMedia, Relay;
  }
}
