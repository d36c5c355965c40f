/**
 The characters of the generated tenant route program: no word of it holds a space or a line break, so its
 lines and words can be read off its text (edge/runtime/contracts.py, `_compiler_fragment`).
 */
module FragmentText {
  import opened Options
  import opened TextLines
  import opened Decimals
  import opened TenantFragment
  import opened Profiles
  import opened RuntimeRewrite
  import CompilerRenderer
  import TenantParser

  // ---------------------------------------------------------------- words

  /** No space and no line break. */
  predicate Unbroken(w: string) {
    forall i | 0 <= i < |w| :: w[i] != ' ' && w[i] != '\n'
  }

  lemma Word(w: string)
    requires w != "" && Unbroken(w)
    ensures ProperWord(w)
  {
  }

  lemma Around(a: string, w: string, b: string)
    requires a != "" && Unbroken(a) && Unbroken(w) && Unbroken(b)
    ensures ProperWord(a + w + b)
  {
    var all := a + w + b;
    assert forall i | 0 <= i < |all| :: all[i] == if i < |a| then a[i] else if i < |a| + |w| then w[i - |a|] else b[i - |a| - |w|];
    Word(all);
  }

  lemma Glued(a: string, b: string)
    requires Unbroken(a) && Unbroken(b)
    ensures Unbroken(a + b)
  {
  }

  predicate Whole(p: Program) {
    forall i | 0 <= i < |p| :: Proper(p[i])
  }

  lemma Conditions()
    ensures ProperWord("if") && ProperWord("==") && ProperWord("!=") && ProperWord("=~") && ProperWord("&&") && ProperWord("=")
    ensures ProperWord("{") && ProperWord("}") && ProperWord("exit;") && ProperWord("####")
  {
    Word("if"); Word("=="); Word("!="); Word("=~"); Word("&&"); Word("="); Word("{"); Word("}"); Word("exit;"); Word("####");
  }

  lemma IngressWhole(name: string, port: string)
    requires Unbroken(name) && Unbroken(port)
    ensures Whole(Ingress(name, port))
  {
    Conditions();
    Around("route[VIVO_", name, "]");
    Glued(port, ")");
    Word(port + ")");
    Word("($socket_in(port)"); Word("send_reply(403,"); Word("\"Wrong"); Word("ingress\");");
    Word("(is_method(\"OPTIONS\"))"); Word("send_reply(200,"); Word("\"OK\");");
    hide ProperWord, Unbroken;
  }

  lemma RefusalsWhole()
    ensures Whole(MethodTest()) && Whole(NoRoute()) && Whole(BeforeMedia())
  {
    Conditions();
    Word("(!is_method(\"INVITE\"))"); Word("send_reply(405,"); Word("\"Method"); Word("not"); Word("allowed\");");
    Word("send_reply(404,"); Word("\"No"); Word("tenant"); Word("route\");");
    Word("record_route();"); Word("(has_body(\"application/sdp\"))");
    hide ProperWord, Unbroken;
  }

  lemma LegsWhole(host: string, port: string, digits: string, name: string)
    requires Unbroken(host) && Unbroken(port) && Unbroken(digits) && Unbroken(name)
    ensures Proper(Destination(host, port)) && Proper(PrefixTest(digits)) && Proper(ReplyHook(name)) && Proper(FailureHook(name))
  {
    Conditions();
    Word("$du"); Word("(!($rU");
    Glued(host, ":");
    Glued(host + ":", port);
    Around("\"sip:", host + ":" + port, ";transport=tls\";");
    assert Uri(host, port) == "\"sip:" + (host + ":" + port) + ";transport=tls\";";
    Around("\"^[+]", digits, "[0-9]*$\"))");
    Around("t_on_reply(\"VIVO_", name, "\");");
    Around("t_on_failure(\"VIVO_", name, "\");");
    hide ProperWord, Unbroken;
  }

  lemma FlagWords()
    ensures ProperWord("replace-session-connection") && ProperWord(OFFER_CALL) && ProperWord(ANSWER_CALL)
  {
    Word("replace-session-connection");
    Word(OFFER_CALL);
    Word(ANSWER_CALL);
  }

  lemma MediaWhole(last: seq<string>)
    requires forall i | 0 <= i < |last| :: ProperWord(last[i])
    ensures Proper(Offer(last)) && Proper(Answer(last))
  {
    Conditions();
    FlagWords();
    hide ProperWord, Unbroken;
  }

  // ---------------------------------------------------------------- accounting hooks

  lemma MarkerWords()
    ensures ProperWord("#!ifdef") && ProperWord("#!endif") && ProperWord("VIVO_SYNTHETIC_CDR") && ProperWord("xlog(\"L_NOTICE\",")
    ensures ProperWord("$avp(vivo_synth_test_id)") && ProperWord("$avp(vivo_synth_final_logged)")
    ensures Unbroken("\"VIVO_SYNTHETIC_CDR_V1") && Unbroken("|direction=") && Unbroken("$avp(vivo_synth_direction)")
    ensures Unbroken("|test_id=") && Unbroken("$avp(vivo_synth_test_id)") && Unbroken("\\n\");")
  {
    Word("#!ifdef"); Word("#!endif"); Word("VIVO_SYNTHETIC_CDR"); Word("xlog(\"L_NOTICE\",");
    Word("$avp(vivo_synth_test_id)"); Word("$avp(vivo_synth_final_logged)");
  }

  lemma HookWords()
    ensures ProperWord("($hdr(X-Vivolution-Fixture)") && ProperWord("\"no-pstn\"") && ProperWord("($hdr(X-Vivolution-Test-ID)")
    ensures ProperWord("$hdr(X-Vivolution-Test-ID);") && ProperWord("$avp(vivo_synth_direction)") && ProperWord("0;")
    ensures ProperWord("($avp(vivo_synth_test_id)") && ProperWord("NULL") && ProperWord("0)") && ProperWord("1;")
  {
    Word("($hdr(X-Vivolution-Fixture)"); Word("\"no-pstn\""); Word("($hdr(X-Vivolution-Test-ID)");
    Word("$hdr(X-Vivolution-Test-ID);"); Word("$avp(vivo_synth_direction)"); Word("0;");
    Word("($avp(vivo_synth_test_id)"); Word("NULL"); Word("0)"); Word("1;");
  }

  lemma EventWord(event: string, token: string, rest: string)
    requires Unbroken(event) && Unbroken(token) && Unbroken(rest)
    ensures var word := "\"VIVO_SYNTHETIC_CDR_V1" + event + token + "|direction=" + "$avp(vivo_synth_direction)" + "|test_id="
      + "$avp(vivo_synth_test_id)" + rest;
      word != "" && Unbroken(word) && ProperWord(word)
  {
    MarkerWords();
    var a := "\"VIVO_SYNTHETIC_CDR_V1" + event;
    Glued("\"VIVO_SYNTHETIC_CDR_V1", event);
    Glued(a, token);
    Glued(a + token, "|direction=");
    var b := a + token + "|direction=";
    Glued(b, "$avp(vivo_synth_direction)");
    Glued(b + "$avp(vivo_synth_direction)", "|test_id=");
    var c := b + "$avp(vivo_synth_direction)" + "|test_id=";
    Glued(c, "$avp(vivo_synth_test_id)");
    Glued(c + "$avp(vivo_synth_test_id)", rest);
    Word(c + "$avp(vivo_synth_test_id)" + rest);
    hide Unbroken, ProperWord;
  }

  lemma SyntheticStartWhole(token: string, direction: string)
    requires Unbroken(token) && Unbroken(direction)
    ensures Whole(SyntheticStart(token, direction))
  {
    Conditions();
    MarkerWords();
    HookWords();
    var a, b := "\"^[0-9]{8}T[0-9]{6}Z-", "sbc[12]-[0-9]{1,10}$\"))";
    Around(a, b, "");
    assert a + b + "" == a + b;
    Around("\"", direction, "\";");
    Word("|event=START|route=");
    EventWord("|event=START|route=", token, "\\n\");");
    hide ProperWord, Unbroken;
  }

  lemma SyntheticFinalWhole(token: string, outcome: string, indent: nat)
    requires Unbroken(token) && Unbroken(outcome)
    ensures Whole(SyntheticFinal(token, outcome, indent))
  {
    Conditions();
    MarkerWords();
    HookWords();
    Word("|event=FINAL|route=");
    Word("|result=");
    Glued("|result=", outcome);
    Glued("|result=" + outcome, "\\n\");");
    EventWord("|event=FINAL|route=", token, "|result=" + outcome + "\\n\");");
    var head := "\"VIVO_SYNTHETIC_CDR_V1" + "|event=FINAL|route=" + token + "|direction=" + "$avp(vivo_synth_direction)" + "|test_id="
      + "$avp(vivo_synth_test_id)";
    assert head + ("|result=" + outcome + "\\n\");") == head + "|result=" + outcome + "\\n\");";
    hide ProperWord, Unbroken;
  }

  // ---------------------------------------------------------------- the other parts

  lemma Outcomes()
    ensures Unbroken("MEDIA_ANCHOR_FAILED") && Unbroken("RELAY_FAILED") && Unbroken("ACCEPTED") && Unbroken("SIP_FAILURE")
    ensures Unbroken("_MEDIA_REPLY") && Unbroken("_MEDIA_FAILURE") && Unbroken("_TEAMS_TO_PBX") && Unbroken("_PBX_TO_TEAMS")
    ensures Unbroken("TEAMS_FIXTURE_TO_PBX_FIXTURE") && Unbroken("PBX_FIXTURE_TO_TEAMS_FIXTURE")
  {
  }

  lemma AfterMediaWhole(token: string)
    requires Unbroken(token)
    ensures Whole(AfterMedia(token)) && Whole(Relay(token))
  {
    Conditions();
    Outcomes();
    SyntheticFinalWhole(token, "MEDIA_ANCHOR_FAILED", 12);
    SyntheticFinalWhole(token, "RELAY_FAILED", 8);
    Word("send_reply(500,"); Word("\"Media"); Word("anchoring"); Word("failed\");");
    Word("(!t_relay())"); Word("rtpengine_delete();"); Word("sl_reply_error();");
    hide ProperWord, Unbroken, SyntheticFinal;
  }

  lemma TitleWhole()
    ensures Whole(Title())
  {
    TitleWords();
    MoreTitleWords();
    hide ProperWord, Unbroken;
  }

  lemma TitleWords()
    ensures ProperWord("####") && ProperWord("Vivolution") && ProperWord("generated") && ProperWord("tenant") && ProperWord("fragment")
    ensures ProperWord("v0.1") && ProperWord("This") && ProperWord("file") && ProperWord("contains") && ProperWord("no")
    ensures ProperWord("certificate,") && ProperWord("key,") && ProperWord("password,") && ProperWord("token,") && ProperWord("path,")
    ensures ProperWord("unit,")
  {
    Word("####"); Word("Vivolution"); Word("generated"); Word("tenant"); Word("fragment"); Word("v0.1"); Word("This");
    Word("file"); Word("contains"); Word("no"); Word("certificate,"); Word("key,"); Word("password,"); Word("token,");
    Word("path,"); Word("unit,");
  }

  lemma MoreTitleWords()
    ensures ProperWord("or") && ProperWord("package") && ProperWord("input.") && ProperWord("It") && ProperWord("requires")
    ensures ProperWord("a") && ProperWord("reviewed") && ProperWord("shared") && ProperWord("dispatcher,") && ProperWord("TLS")
    ensures ProperWord("domains") && ProperWord("and") && ProperWord("the") && ProperWord("modules") && ProperWord("listed")
    ensures ProperWord("below.")
  {
    Word("or"); Word("package"); Word("input."); Word("It"); Word("requires"); Word("a"); Word("reviewed");
    Word("shared"); Word("dispatcher,"); Word("TLS"); Word("domains"); Word("and"); Word("the"); Word("modules");
    Word("listed"); Word("below.");
  }

  lemma SignedWhole(r: Route)
    ensures Whole(SignedLines(r))
  {
    Word("####"); Word("Signed"); Word("OPTIONS"); Word("interval"); Word("seconds:"); Word("PBX"); Word("media"); Word("destination");
    Word("UDP"); Word("ports:");
    Word(Decimal(r.interval));
    Glued(Decimal(r.mediaStart), "-");
    Glued(Decimal(r.mediaStart) + "-", Decimal(r.mediaEnd));
    Word(Decimal(r.mediaStart) + "-" + Decimal(r.mediaEnd));
    hide ProperWord, Unbroken, Decimal;
  }

  lemma SocketWhole(control: string)
    requires Unbroken(control)
    ensures Whole(Socket(control))
  {
    Word("modparam(\"rtpengine\","); Word("\"rtpengine_sock\",");
    Around("\"udp:", control, "\")");
    hide ProperWord, Unbroken;
  }

  lemma ReplyRouteWhole(token: string, name: string, last: seq<string>)
    requires Unbroken(token) && Unbroken(name) && forall i | 0 <= i < |last| :: ProperWord(last[i])
    ensures Whole(ReplyRoute(token, name, last))
  {
    Conditions();
    Outcomes();
    MediaWhole(last);
    SyntheticFinalWhole(token, "MEDIA_ANCHOR_FAILED", 12);
    SyntheticFinalWhole(token, "ACCEPTED", 8);
    Around("onreply_route[VIVO_", name, "]");
    Word("(t_check_status(\"[12][0-9][0-9]\")"); Word("has_body(\"application/sdp\"))"); Word("drop;");
    Word("(t_check_status(\"2[0-9][0-9]\"))");
    hide ProperWord, Unbroken, SyntheticFinal, Answer;
  }

  lemma FailureRouteWhole(token: string)
    requires Unbroken(token)
    ensures Whole(FailureRoute(token))
  {
    Conditions();
    Outcomes();
    SyntheticFinalWhole(token, "SIP_FAILURE", 4);
    Around("failure_route[VIVO_", token, "_MEDIA_FAILURE]");
    Word("rtpengine_delete();");
    hide ProperWord, Unbroken, SyntheticFinal;
  }

  // ---------------------------------------------------------------- whole programs

  predicate WholeLeg(leg: Leg) {
    Whole(leg.destination) && Proper(leg.offer) && Proper(leg.reply) && Proper(leg.failure)
  }

  predicate WholeParts(parts: seq<Program>) {
    forall i | 0 <= i < |parts| :: Whole(parts[i])
  }

  lemma DirectionWhole(token: string, prefix: string, name: string, port: string, fixture: string, leg: Leg)
    requires Unbroken(token) && Unbroken(prefix) && Unbroken(name) && Unbroken(port) && Unbroken(fixture) && WholeLeg(leg)
    ensures WholeParts(Direction(token, prefix, name, port, fixture, leg))
  {
    Glued(token, name);
    IngressWhole(token + name, port);
    RefusalsWhole();
    LegsWhole("", "", prefix, "");
    SyntheticStartWhole(token, fixture);
    AfterMediaWhole(token);
    hide Proper, Unbroken, Ingress, MethodTest, NoRoute, PrefixTest, SyntheticStart, BeforeMedia, AfterMedia, Relay;
  }

  predicate WholeConstants(c: Constants) {
    Unbroken(c.control) && Unbroken(c.teamsPort) && Unbroken(c.pbxPort)
  }

  lemma SkeletonWhole(r: Route, c: Constants, toPbx: Leg, toTeams: Leg, replies: Program, tail: Program)
    requires Unbroken(r.token) && Unbroken(r.prefix) && WholeConstants(c)
    requires WholeLeg(toPbx) && WholeLeg(toTeams) && Whole(replies) && Whole(tail)
    ensures Whole(Flatten(Skeleton(r, c, toPbx, toTeams, replies, tail)))
  {
    Outcomes();
    TitleWhole();
    SignedWhole(r);
    SocketWhole(c.control);
    DirectionWhole(r.token, r.prefix, "_TEAMS_TO_PBX", c.teamsPort, "TEAMS_FIXTURE_TO_PBX_FIXTURE", toPbx);
    DirectionWhole(r.token, r.prefix, "_PBX_TO_TEAMS", c.pbxPort, "PBX_FIXTURE_TO_TEAMS_FIXTURE", toTeams);
    assert Whole([BLANK]);
    assert WholeParts(Opening(r, c)) && WholeParts([replies, [BLANK], tail]) by {
      hide Whole, Title, SignedLines, Socket;
    }
    hide Whole, Opening, Direction, Unbroken, WholeLeg;
    var parts := Skeleton(r, c, toPbx, toTeams, replies, tail);
    var out, inn := Outbound(r, c, toPbx), Inbound(r, c, toTeams);
    PartsConcat(Opening(r, c), out);
    PartsConcat(Opening(r, c) + out, inn);
    PartsConcat(Opening(r, c) + out + inn, [replies, [BLANK], tail]);
    WholeFlatten(parts);
  }

  lemma PartsConcat(a: seq<Program>, b: seq<Program>)
    requires WholeParts(a) && WholeParts(b)
    ensures WholeParts(a + b)
  {
    hide Whole;
  }

  lemma WholeFlatten(parts: seq<Program>)
    requires WholeParts(parts)
    ensures Whole(Flatten(parts))
  {
    FlattenHolds(parts, l => Proper(l));
    hide Flatten, Proper;
  }

  lemma HostUnbroken(host: string)
    requires StrictHost(host)
    ensures Unbroken(host)
  {
    StrictHostChars(host);
    hide StrictHost, HostChars;
    assert forall i | 0 <= i < |host| :: host[i] in host;
  }

  lemma SpelledWords()
    ensures WholeConstants(SPELLED) && forall i | 0 <= i < 3 :: Unbroken(TEAMS_HUBS[i])
    ensures forall i | 0 <= i < |ANY_INTERFACE| :: ProperWord(ANY_INTERFACE[i])
  {
    Word(ANY_INTERFACE[0]);
  }

  lemma DecimalUnbroken(n: nat)
    ensures Unbroken(Decimal(n))
  {
  }

  lemma GenericLegWhole(token: string, host: string, port: string)
    requires Unbroken(token) && Unbroken(host) && Unbroken(port)
    ensures WholeLeg(GenericLeg(token, Destination(host, port)))
  {
    Outcomes();
    SpelledWords();
    Glued(token, "_MEDIA_REPLY");
    Glued(token, "_MEDIA_FAILURE");
    LegsWhole(host, port, "", token + "_MEDIA_REPLY");
    LegsWhole(host, port, "", token + "_MEDIA_FAILURE");
    MediaWhole(ANY_INTERFACE);
    hide Proper, ProperWord, Unbroken, Destination, Offer, ReplyHook, FailureHook;
  }

  /** What a route must be for its program to be readable as text. */
  predicate Textual(r: Route) {
    StrictHost(r.host) && Unbroken(r.token) && IsDigits(r.prefix)
  }

  /** Every line of the compiled program keeps its words. */
  lemma CompiledIsWhole(r: Route)
    requires Textual(r) && Renderable(r)
    ensures Whole(CompilerRenderer.RenderOpensips(r)) && CompilerFragment(r) == Some(CompilerRenderer.RenderOpensips(r))
  {
    Outcomes();
    SpelledWords();
    HostUnbroken(r.host);
    DecimalUnbroken(r.port);
    GenericLegWhole(r.token, r.host, Decimal(r.port));
    GenericLegWhole(r.token, TEAMS_HUBS[0], "5061");
    Glued(r.token, "_MEDIA_REPLY");
    ReplyRouteWhole(r.token, r.token + "_MEDIA_REPLY", ANY_INTERFACE);
    FailureRouteWhole(r.token);
    assert Unbroken(r.prefix);
    CompilerRenderer.RenderersAgree(r);
    hide Whole, StrictHost, Unbroken, GenericLeg, Destination, Skeleton, ReplyRoute, FailureRoute, Flatten, Decimal, ProperWord, WholeLeg,
         CompilerRenderer.RenderOpensips;
    SkeletonWhole(r, SPELLED, GenericLeg(r.token, Destination(r.host, Decimal(r.port))), GenericLeg(r.token, Destination(TEAMS_HUBS[0], "5061")),
      ReplyRoute(r.token, r.token + "_MEDIA_REPLY", ANY_INTERFACE), FailureRoute(r.token));
  }

  // ---------------------------------------------------------------- the running program

  predicate TextualNode(node: Node) {
    Unbroken(node.privateIpv4) && Unbroken(node.fqdn)
  }

  lemma EgressWhole(node: Node, port: string, indent: nat)
    requires TextualNode(node) && Unbroken(port)
    ensures Whole(Egress(node, port, indent))
  {
    Glued(node.privateIpv4, ":");
    Glued(node.privateIpv4 + ":", port);
    Around("force_send_socket(\"tls:", node.privateIpv4 + ":" + port, "\");");
    assert "force_send_socket(\"tls:" + (node.privateIpv4 + ":" + port) + "\");"
        == "force_send_socket(\"tls:" + node.privateIpv4 + ":" + port + "\");";
    Around("set_advertised_address(\"", node.fqdn, "\");");
    Around("set_advertised_port(\"", port, "\");");
    hide ProperWord, Unbroken;
  }

  lemma TlsDomainWhole(name: string, indent: nat, n: string)
    requires Unbroken(name) && Unbroken(n)
    ensures Proper(TlsDomain(name, indent)) && Proper(HubCounter(n, indent))
  {
    Conditions();
    Word("$avp(tls_sip_dom)"); Word("$avp(vivo_teams_hub)");
    Around("\"", name, "\";");
    Glued(n, ";");
    Word(n + ";");
    hide ProperWord, Unbroken;
  }

  lemma FlagsWhole(i: Interfaces)
    ensures forall k | 0 <= k < |Flags(i)| :: ProperWord(Flags(i)[k])
    ensures Unbroken(ReplyName(i))
  {
    SpelledWords();
    Word("ICE=remove"); Word("in-iface=public"); Word("in-iface=private"); Word("out-iface=private\"))"); Word("out-iface=public\"))");
    hide ProperWord;
  }

  lemma PbxRuntimeWhole(r: Route, profile: Profile, node: Node)
    requires Textual(r) && TextualNode(node)
    ensures Whole(PbxRuntime(r, profile, node))
  {
    HostUnbroken(r.host);
    DecimalUnbroken(r.port);
    TlsDomainWhole(r.host, 4, "");
    LegsWhole("10.20.1.4", "16061", "", "");
    LegsWhole("10.20.1.4", "5061", "", "");
    LegsWhole(r.host, Decimal(r.port), "", "");
    EgressWhole(node, "15061", 4);
    hide Proper, StrictHost, Unbroken, Egress, TlsDomain, Destination, Decimal;
  }

  lemma TeamsRuntimeWhole(profile: Profile, node: Node)
    requires TextualNode(node)
    ensures Whole(TeamsRuntime(profile, node))
  {
    SpelledWords();
    TlsDomainWhole("10.20.1.4", 4, "1");
    TlsDomainWhole(TEAMS_HUBS[0], 4, "1");
    LegsWhole("10.20.1.4", "25061", "", "");
    LegsWhole(TEAMS_HUBS[0], "5061", "", "");
    EgressWhole(node, "5061", 4);
    hide Proper, Unbroken, Egress, TlsDomain, Destination, HubCounter;
  }

  lemma HooksWhole(r: Route, i: Interfaces, profile: Profile)
    requires Unbroken(r.token)
    ensures Proper(OfferLine(i)) && Proper(MediaHook(r, i)) && Proper(GenericFailureHook(r)) && Proper(FailoverHook(r, profile))
    ensures Whole(MediaReplyRoute(r, i))
  {
    FlagsWhole(i);
    FlagsWhole(Opposite(i));
    MediaWhole(Flags(i));
    Outcomes();
    assert Unbroken("_TEAMS_FAILOVER");
    Glued(r.token, ReplyName(i));
    Glued(r.token, "_MEDIA_FAILURE");
    Glued(r.token, "_TEAMS_FAILOVER");
    LegsWhole("", "", "", r.token + ReplyName(i));
    LegsWhole("", "", "", r.token + "_MEDIA_FAILURE");
    LegsWhole("", "", "", r.token + "_TEAMS_FAILOVER");
    ReplyRouteWhole(r.token, r.token + ReplyName(i), Flags(Opposite(i)));
    hide Proper, ProperWord, Unbroken, Offer, ReplyHook, FailureHook, ReplyRoute, ReplyName, Flags;
  }

  lemma FailoverStepWhole(r: Route, node: Node, hub: string, current: string, next: string)
    requires Unbroken(r.token) && TextualNode(node) && Unbroken(hub) && Unbroken(current) && Unbroken(next)
    ensures Whole(FailoverStep(r, node, hub, current, next))
  {
    Conditions();
    TlsDomainWhole(hub, 8, next);
    EgressWhole(node, "5061", 8);
    LegsWhole(hub, "5061", "", "");
    assert Destination(hub, "5061").words[2] == Uri(hub, "5061");
    Glued(current, ")");
    Word(current + ")");
    Word("$du"); Word("($avp(vivo_teams_hub)"); Word("(t_relay())");
    Around("t_on_failure(\"VIVO_", r.token, "_TEAMS_FAILOVER\");");
    hide ProperWord, Unbroken, Egress, TlsDomain, HubCounter, Uri;
  }

  lemma FailoverRouteWhole(r: Route, node: Node)
    requires Unbroken(r.token) && TextualNode(node)
    ensures Whole(FailoverRoute(r, node))
  {
    Conditions();
    SpelledWords();
    FailoverStepWhole(r, node, TEAMS_HUBS[1], "1", "2");
    FailoverStepWhole(r, node, TEAMS_HUBS[2], "2", "3");
    Around("failure_route[VIVO_", r.token, "_TEAMS_FAILOVER]");
    Word("(t_was_cancelled())"); Word("rtpengine_delete();");
    hide ProperWord, Unbroken, FailoverStep;
  }

  predicate TextualTarget(t: OptionsTarget) {
    Unbroken(t.host) && Unbroken(t.port) && Unbroken(t.domain) && Unbroken(t.egress)
  }

  lemma Address(start: string, host: string, port: string, end: string)
    requires start != "" && Unbroken(start) && Unbroken(host) && Unbroken(port) && Unbroken(end)
    ensures ProperWord(start + host + ":" + port + end)
  {
    Glued(host, ":");
    Glued(host + ":", port);
    Around(start, host + ":" + port, end);
    assert start + (host + ":" + port) + end == start + host + ":" + port + end;
  }

  lemma TargetWhole(node: Node, t: OptionsTarget)
    requires TextualNode(node) && TextualTarget(t)
    ensures Whole(LocalTarget(node, t)) && Proper(TimerRequest(node, t))
  {
    Conditions();
    TlsDomainWhole(t.domain, 8, "");
    EgressWhole(node, t.egress, 8);
    assert Unbroken("\"sip:") && Unbroken(";transport=tls\")") && Unbroken(";transport=tls\",") && Unbroken("\",") && Unbroken("\");");
    assert Unbroken("<sip:") && Unbroken(";transport=tls>") && Unbroken("\\r\\n\");");
    Address("\"sip:", t.host, t.port, ";transport=tls\")");
    Address("\"sip:", t.host, t.port, ";transport=tls\",");
    Address("\"sip:", node.fqdn, t.egress, "\",");
    Address("\"sip:", t.domain, t.port, "\");");
    Glued(";transport=tls>", "\\r\\n\");");
    Address("<sip:", node.fqdn, t.egress, ";transport=tls>" + "\\r\\n\");");
    assert "<sip:" + node.fqdn + ":" + t.egress + (";transport=tls>" + "\\r\\n\");")
        == "<sip:" + node.fqdn + ":" + t.egress + ";transport=tls>" + "\\r\\n\");";
    Word("($ru"); Word("append_hf(\"Contact:"); Word("t_new_request(\"OPTIONS\",");
    hide ProperWord, Unbroken, Egress, TlsDomain;
  }

  lemma {:induction false} TargetsWhole(node: Node, targets: seq<OptionsTarget>)
    requires TextualNode(node) && forall i | 0 <= i < |targets| :: TextualTarget(targets[i])
    ensures Whole(LocalTargets(node, targets))
    decreases |targets|
  {
    hide Proper, LocalTarget, TextualTarget;
    if targets != [] {
      TargetWhole(node, targets[0]);
      TargetsWhole(node, targets[1..]);
    }
  }

  lemma OptionsTargetsTextual(r: Route, profile: Profile)
    requires Textual(r)
    ensures forall i | 0 <= i < |OptionsTargets(r, profile)| :: TextualTarget(OptionsTargets(r, profile)[i])
  {
    SpelledWords();
    HostUnbroken(r.host);
    DecimalUnbroken(r.port);
    assert Unbroken("10.20.1.4") && Unbroken("15061");
    hide StrictHost, Unbroken, Decimal, ProperWord;
  }

  lemma DirectOptionsWhole(r: Route, profile: Profile, node: Node)
    requires Textual(r) && TextualNode(node)
    ensures Whole(DirectOptions(r, profile, node))
  {
    var targets := OptionsTargets(r, profile);
    OptionsTargetsTextual(r, profile);
    TargetsWhole(node, targets);
    OptionsFrame(r);
    var requests := seq(|targets|, i requires 0 <= i < |targets| => TimerRequest(node, targets[i]));
    assert Whole(requests) by {
      forall i | 0 <= i < |targets| ensures Proper(requests[i]) { TargetWhole(node, targets[i]); }
    }
    hide Proper, OptionsTargets, LocalTargets, TimerRequest, Textual, TextualTarget, TextualNode, Decimal;
  }

  lemma OptionsFrame(r: Route)
    requires Unbroken(r.token)
    ensures Proper(Comment(["Direct", "Routing", "OPTIONS", "generation;", "peer", "responses", "are", "an", "external", "acceptance", "gate."]))
    ensures Proper(Line(0, ["local_route", BRACE])) && Proper(Line(4, ["if", "(!is_method(\"OPTIONS\"))", BRACE]))
    ensures Proper(Line(8, ["exit;"])) && Proper(Line(4, ["exit;"])) && Proper(Line(4, [CLOSE])) && Proper(Line(0, [CLOSE])) && Proper(BLANK)
    ensures Proper(Line(0, ["timer_route[VIVO_" + r.token + "_DIRECT_OPTIONS,", Decimal(r.interval) + "]", BRACE]))
  {
    Conditions();
    Word("Direct"); Word("Routing"); Word("OPTIONS"); Word("generation;"); Word("peer"); Word("responses"); Word("are"); Word("an");
    Word("external"); Word("acceptance"); Word("gate."); Word("local_route"); Word("(!is_method(\"OPTIONS\"))");
    Around("timer_route[VIVO_", r.token, "_DIRECT_OPTIONS,");
    DecimalUnbroken(r.interval);
    Glued(Decimal(r.interval), "]");
    Word(Decimal(r.interval) + "]");
    hide ProperWord, Unbroken, Decimal;
  }

  lemma RuntimeLegsWhole(r: Route, profile: Profile, node: Node)
    requires Textual(r) && TextualNode(node)
    ensures WholeLeg(OutboundLeg(r, profile, node)) && WholeLeg(InboundLeg(r, profile, node))
    ensures Whole(RuntimeReplies(r, profile)) && Whole(RuntimeTail(r, profile, node))
  {
    PbxRuntimeWhole(r, profile, node);
    TeamsRuntimeWhole(profile, node);
    HooksWhole(r, AnyInterface, profile);
    HooksWhole(r, Inward, profile);
    HooksWhole(r, Outward, profile);
    FailureRouteWhole(r.token);
    FailoverRouteWhole(r, node);
    DirectOptionsWhole(r, profile, node);
    assert Proper(BLANK);
    hide Proper, StrictHost, Unbroken, PbxRuntime, TeamsRuntime, OfferLine, MediaHook, GenericFailureHook, FailoverHook, MediaReplyRoute,
         FailureRoute, FailoverRoute, DirectOptions;
  }

  /** Every line of the running program keeps its words. */
  lemma RuntimeIsWhole(r: Route, profile: Profile, node: Node)
    requires Textual(r) && TextualNode(node)
    ensures Whole(Flatten(RuntimeParts(r, profile, node)))
  {
    RuntimeLegsWhole(r, profile, node);
    SpelledWords();
    assert Unbroken(r.prefix);
    hide Whole, StrictHost, Unbroken, WholeLeg, Skeleton, OutboundLeg, InboundLeg, RuntimeReplies, RuntimeTail, Flatten, WholeConstants;
    SkeletonWhole(r, SPELLED, OutboundLeg(r, profile, node), InboundLeg(r, profile, node), RuntimeReplies(r, profile),
      RuntimeTail(r, profile, node));
  }

  // ---------------------------------------------------------------- programs and texts

  /** The text of a program: each line and a line break. */
  function TextOf(p: Program): string {
    if p == [] then "" else Text(p[0]) + "\n" + TextOf(p[1..])
  }

  lemma {:induction false} JoinedUnbroken(words: seq<string>)
    requires forall i | 0 <= i < |words| :: ProperWord(words[i])
    ensures '\n' !in Joined(words)
    decreases |words|
  {
    if |words| > 1 {
      JoinedUnbroken(words[1..]);
      assert '\n' !in words[0] && '\n' !in " ";
    } else if |words| == 1 {
      assert '\n' !in words[0];
    }
  }

  lemma LineUnbroken(l: Line)
    requires Proper(l)
    ensures '\n' !in Text(l)
  {
    JoinedUnbroken(l.words);
  }

  /** The first line break ends the first line. */
  lemma FirstLine(a: string, rest: string, b: string, rest': string)
    requires '\n' !in a && '\n' !in b && a + "\n" + rest == b + "\n" + rest'
    ensures a == b && rest == rest'
  {
    var x, y := a + "\n" + rest, b + "\n" + rest';
    assert x[|a|] == '\n' && y[|b|] == '\n';
    assert forall i | 0 <= i < |a| :: x[i] in a;
    assert forall i | 0 <= i < |b| :: y[i] in b;
    assert |a| == |b|;
    assert a == x[..|a|] && b == y[..|b|] && rest == x[|a| + 1..] && rest' == y[|b| + 1..];
  }

  /** Equal texts are texts of one program. */
  lemma {:induction false} TextDeterminesProgram(a: Program, b: Program)
    requires Whole(a) && Whole(b) && TextOf(a) == TextOf(b)
    ensures a == b
    decreases |a|
  {
    if a != [] && b != [] {
      LineUnbroken(a[0]);
      LineUnbroken(b[0]);
      FirstLine(Text(a[0]), TextOf(a[1..]), Text(b[0]), TextOf(b[1..]));
      TextIsInjective(a[0], b[0]);
      hide Proper, Text;
      TextDeterminesProgram(a[1..], b[1..]);
      assert a == [a[0]] + a[1..] && b == [b[0]] + b[1..];
    }
  }

  /** The bytes that the compiler signs determine the route among those of one node. */
  lemma SignedTextDeterminesRoute(r: Route, s: Route)
    requires TenantParser.Authorized(r) && TenantParser.Authorized(s) && Textual(r) && Textual(s)
    requires TenantParser.FactsOf(r) == TenantParser.FactsOf(s) && r.host !in TEAMS_HUBS && s.host !in TEAMS_HUBS
    requires TextOf(CompilerRenderer.RenderOpensips(r)) == TextOf(CompilerRenderer.RenderOpensips(s))
    ensures r == s
  {
    CompiledIsWhole(r);
    CompiledIsWhole(s);
    TextDeterminesProgram(CompilerRenderer.RenderOpensips(r), CompilerRenderer.RenderOpensips(s));
    TenantParser.ParseInvertsRender(r);
    TenantParser.ParseInvertsRender(s);
    hide CompilerRenderer.RenderOpensips, TextOf, TenantParser.Parse, StrictHost, Unbroken, Whole;
  }

  /** The lines whose text holds a text. */
  ghost function LinesHolding(p: Program, text: string): nat {
    if p == [] then 0 else (if exists k: nat :: OccursAt(text, Text(p[0]), k) then 1 else 0) + LinesHolding(p[1..], text)
  }

  /** Counting an indented pattern's lines is counting the places of its text, of which a line has at most
      one. */
  lemma {:induction false} CountIsOfText(p: Program, pattern: Line)
    requires Whole(p) && Proper(pattern) && pattern.indent >= 2
    ensures Count(p, pattern) == LinesHolding(p, Text(pattern))
    ensures forall i, k: nat, j: nat | 0 <= i < |p| && OccursAt(Text(pattern), Text(p[i]), k) && OccursAt(Text(pattern), Text(p[i]), j) :: k == j
    decreases |p|
  {
    hide Proper, Text, Within, OccursAt;
    if p != [] {
      OccursIffWithin(pattern, p[0]);
      CountIsOfText(p[1..], pattern);
      forall i, k: nat, j: nat | 0 <= i < |p| && OccursAt(Text(pattern), Text(p[i]), k) && OccursAt(Text(pattern), Text(p[i]), j)
        ensures k == j
      {
        if i > 0 { assert p[i] == p[1..][i - 1]; }
      }
    }
  }
}
