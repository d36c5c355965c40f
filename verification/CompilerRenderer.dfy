/**
 The compiler's own renderer of the generated tenant route program, line for line as its template reads
 (edge/compiler/core.py, `_render_opensips`), against the runtime's.
 */
module CompilerRenderer {
  import opened Options
  import opened TextLines
  import opened Decimals
  import opened TenantFragment

  const RTPENGINE_NG_HOST := "127.0.0.1"
  const RTPENGINE_NG_PORT: nat := 2223
  const RTPENGINE_CLI_PORT: nat := 2224
  const TEAMS_PRIMARY_UPSTREAM := "sip.pstnhub.microsoft.com"
  const TEAMS_TLS_PORT: nat := 5061
  const PBX_TLS_LISTENER_PORT: nat := 15061
  const SYNTHETIC_CDR_MARKER := "VIVO_SYNTHETIC_CDR_V1"
  const SYNTHETIC_CDR_TEST_ID_REGEX := "^[0-9]{8}T[0-9]{6}Z-" + "sbc[12]-[0-9]{1,10}$"

  // ---------------------------------------------------------------- the accounting hooks

  function CdrStart(token: string, direction: string): Program {
    [Line(0, ["#!ifdef", "VIVO_SYNTHETIC_CDR"]),
     Line(4, ["if", "($hdr(X-Vivolution-Fixture)", "==", "\"no-pstn\"", "&&"]),
     Line(8, ["($hdr(X-Vivolution-Test-ID)", "=~", "\"" + SYNTHETIC_CDR_TEST_ID_REGEX + "\"))", "{"]),
     Line(8, ["$avp(vivo_synth_test_id)", "=", "$hdr(X-Vivolution-Test-ID);"]),
     Line(8, ["$avp(vivo_synth_direction)", "=", "\"" + direction + "\";"]),
     Line(8, ["$avp(vivo_synth_final_logged)", "=", "0;"]),
     Line(8, ["xlog(\"L_NOTICE\",",
       "\"" + SYNTHETIC_CDR_MARKER + "|event=START|route=" + token + "|direction=" + "$avp(vivo_synth_direction)"
       + "|test_id=" + "$avp(vivo_synth_test_id)" + "\\n\");"]),
     Line(4, ["}"]),
     Line(0, ["#!endif"])]
  }

  function CdrFinal(token: string, outcome: string, indentation: nat): Program {
    [Line(0, ["#!ifdef", "VIVO_SYNTHETIC_CDR"]),
     Line(indentation, ["if", "($avp(vivo_synth_test_id)", "!=", "NULL", "&&"]),
     Line(indentation + 4, ["$avp(vivo_synth_final_logged)", "==", "0)", "{"]),
     Line(indentation + 4, ["xlog(\"L_NOTICE\",",
       "\"" + SYNTHETIC_CDR_MARKER + "|event=FINAL|route=" + token + "|direction=" + "$avp(vivo_synth_direction)"
       + "|test_id=" + "$avp(vivo_synth_test_id)" + "|result=" + outcome + "\\n\");"]),
     Line(indentation + 4, ["$avp(vivo_synth_final_logged)", "=", "1;"]),
     Line(indentation, ["}"]),
     Line(0, ["#!endif"])]
  }

  // ---------------------------------------------------------------- the template between the hooks

  function Heading(r: Route): Program {
    [Line(0, ["####", "Vivolution", "generated", "tenant", "fragment", "v0.1"]),
     Line(0, ["####", "This", "file", "contains", "no", "certificate,", "key,", "password,", "token,", "path,",
       "unit,", "or", "package", "input."]),
     Line(0, ["####", "It", "requires", "a", "reviewed", "shared", "dispatcher,", "TLS", "domains", "and",
       "the", "modules", "listed", "below."]),
     Line(0, ["####", "Signed", "OPTIONS", "interval", "seconds:", Decimal(r.interval)]),
     Line(0, ["####", "Signed", "PBX", "media", "destination", "UDP", "ports:",
       Decimal(r.mediaStart) + "-" + Decimal(r.mediaEnd)]),
     BLANK,
     Line(0, ["modparam(\"rtpengine\",", "\"rtpengine_sock\",",
       "\"udp:" + RTPENGINE_NG_HOST + ":" + Decimal(RTPENGINE_NG_PORT) + "\")"]),
     BLANK]
  }

  function TeamsChecks(token: string, prefixRegex: string): Program {
    [Line(0, ["route[VIVO_" + token + "_TEAMS_TO_PBX]", "{"]),
     Line(4, ["if", "($socket_in(port)", "!=", Decimal(TEAMS_TLS_PORT) + ")", "{"]),
     Line(8, ["send_reply(403,", "\"Wrong", "ingress\");"]),
     Line(8, ["exit;"]),
     Line(4, ["}"]),
     Line(4, ["if", "(is_method(\"OPTIONS\"))", "{"]),
     Line(8, ["send_reply(200,", "\"OK\");"]),
     Line(8, ["exit;"]),
     Line(4, ["}"]),
     Line(4, ["if", "(!is_method(\"INVITE\"))", "{"]),
     Line(8, ["send_reply(405,", "\"Method", "not", "allowed\");"]),
     Line(8, ["exit;"]),
     Line(4, ["}"]),
     Line(4, ["if", "(!($rU", "=~", "\"" + prefixRegex + "\"))", "{"]),
     Line(8, ["send_reply(404,", "\"No", "tenant", "route\");"]),
     Line(8, ["exit;"]),
     Line(4, ["}"])]
  }

  function TeamsCall(pbxUri: string): Program {
    [Line(4, ["$du", "=", "\"" + pbxUri + "\";"]),
     Line(4, ["record_route();"]),
     Line(4, ["if", "(has_body(\"application/sdp\"))", "{"]),
     Line(8, ["if", "(!rtpengine_offer(\"replace-origin", "replace-session-connection", "ICE=remove\"))", "{"])]
  }

  function TeamsAnchored(token: string): Program {
    [Line(12, ["send_reply(500,", "\"Media", "anchoring", "failed\");"]),
     Line(12, ["exit;"]),
     Line(8, ["}"]),
     Line(4, ["}"]),
     Line(4, ["t_on_reply(\"VIVO_" + token + "_MEDIA_REPLY\");"]),
     Line(4, ["t_on_failure(\"VIVO_" + token + "_MEDIA_FAILURE\");"]),
     Line(4, ["if", "(!t_relay())", "{"]),
     Line(8, ["rtpengine_delete();"])]
  }

  function TeamsEnd(): Program {
    [Line(8, ["sl_reply_error();"]),
     Line(4, ["}"]),
     Line(4, ["exit;"]),
     Line(0, ["}"]),
     BLANK]
  }

  function PbxChecks(token: string, prefixRegex: string): Program {
    [Line(0, ["route[VIVO_" + token + "_PBX_TO_TEAMS]", "{"]),
     Line(4, ["if", "($socket_in(port)", "!=", Decimal(PBX_TLS_LISTENER_PORT) + ")", "{"]),
     Line(8, ["send_reply(403,", "\"Wrong", "ingress\");"]),
     Line(8, ["exit;"]),
     Line(4, ["}"]),
     Line(4, ["if", "(is_method(\"OPTIONS\"))", "{"]),
     Line(8, ["send_reply(200,", "\"OK\");"]),
     Line(8, ["exit;"]),
     Line(4, ["}"]),
     Line(4, ["if", "(!is_method(\"INVITE\"))", "{"]),
     Line(8, ["send_reply(405,", "\"Method", "not", "allowed\");"]),
     Line(8, ["exit;"]),
     Line(4, ["}"]),
     Line(4, ["if", "(!($rU", "=~", "\"" + prefixRegex + "\"))", "{"]),
     Line(8, ["send_reply(404,", "\"No", "tenant", "route\");"]),
     Line(8, ["exit;"]),
     Line(4, ["}"])]
  }

  function PbxCall(teamsUri: string): Program {
    [Line(4, ["$du", "=", "\"" + teamsUri + "\";"]),
     Line(4, ["record_route();"]),
     Line(4, ["if", "(has_body(\"application/sdp\"))", "{"]),
     Line(8, ["if", "(!rtpengine_offer(\"replace-origin", "replace-session-connection", "ICE=remove\"))", "{"])]
  }

  function PbxAnchored(token: string): Program {
    [Line(12, ["send_reply(500,", "\"Media", "anchoring", "failed\");"]),
     Line(12, ["exit;"]),
     Line(8, ["}"]),
     Line(4, ["}"]),
     Line(4, ["t_on_reply(\"VIVO_" + token + "_MEDIA_REPLY\");"]),
     Line(4, ["t_on_failure(\"VIVO_" + token + "_MEDIA_FAILURE\");"]),
     Line(4, ["if", "(!t_relay())", "{"]),
     Line(8, ["rtpengine_delete();"])]
  }

  function PbxEnd(): Program {
    [Line(8, ["sl_reply_error();"]),
     Line(4, ["}"]),
     Line(4, ["exit;"]),
     Line(0, ["}"]),
     BLANK]
  }

  function ReplyStart(token: string): Program {
    [Line(0, ["onreply_route[VIVO_" + token + "_MEDIA_REPLY]", "{"]),
     Line(4, ["if", "(t_check_status(\"[12][0-9][0-9]\")", "&&", "has_body(\"application/sdp\"))", "{"]),
     Line(8, ["if", "(!rtpengine_answer(\"replace-origin", "replace-session-connection", "ICE=remove\"))", "{"])]
  }

  function ReplyDropped(): Program {
    [Line(12, ["drop;"]),
     Line(8, ["}"]),
     Line(4, ["}"]),
     Line(4, ["if", "(t_check_status(\"2[0-9][0-9]\"))", "{"])]
  }

  function ReplyEnding(): Program {
    [Line(4, ["}"]),
     Line(0, ["}"]),
     BLANK]
  }

  function FailureStart(token: string): Program {
    [Line(0, ["failure_route[VIVO_" + token + "_MEDIA_FAILURE]", "{"])]
  }

  function FailureEnd(): Program {
    [Line(4, ["rtpengine_delete();"]),
     Line(0, ["}"])]
  }

  // ---------------------------------------------------------------- the template

  function RenderOpensips(r: Route): Program {
    var prefixRegex := "^[+]" + r.prefix + "[0-9]*$";
    var pbxUri := "sip:" + r.host + ":" + Decimal(r.port) + ";transport=tls";
    var teamsUri := "sip:" + TEAMS_PRIMARY_UPSTREAM + ":" + Decimal(TEAMS_TLS_PORT) + ";transport=tls";
    Heading(r) + TeamsRoute(r.token, prefixRegex, pbxUri) + PbxRoute(r.token, prefixRegex, teamsUri)
    + MediaReply(r.token) + MediaFailure(r.token)
  }

  function TeamsRoute(token: string, prefixRegex: string, pbxUri: string): Program {
    TeamsChecks(token, prefixRegex) + CdrStart(token, "TEAMS_FIXTURE_TO_PBX_FIXTURE") + TeamsCall(pbxUri)
    + CdrFinal(token, "MEDIA_ANCHOR_FAILED", 12) + TeamsAnchored(token) + CdrFinal(token, "RELAY_FAILED", 8) + TeamsEnd()
  }

  function PbxRoute(token: string, prefixRegex: string, teamsUri: string): Program {
    PbxChecks(token, prefixRegex) + CdrStart(token, "PBX_FIXTURE_TO_TEAMS_FIXTURE") + PbxCall(teamsUri)
    + CdrFinal(token, "MEDIA_ANCHOR_FAILED", 12) + PbxAnchored(token) + CdrFinal(token, "RELAY_FAILED", 8) + PbxEnd()
  }

  function MediaReply(token: string): Program {
    ReplyStart(token) + CdrFinal(token, "MEDIA_ANCHOR_FAILED", 12) + ReplyDropped() + CdrFinal(token, "ACCEPTED", 8) + ReplyEnding()
  }

  function MediaFailure(token: string): Program {
    FailureStart(token) + CdrFinal(token, "SIP_FAILURE", 4) + FailureEnd()
  }

  // ---------------------------------------------------------------- line by line, the runtime's program

  lemma StartAgrees(token: string, direction: string)
    ensures CdrStart(token, direction) == SyntheticStart(token, direction)
  {
    assert "\"" + SYNTHETIC_CDR_MARKER == "\"VIVO_SYNTHETIC_CDR_V1";
    var a, b := "^[0-9]{8}T[0-9]{6}Z-", "sbc[12]-[0-9]{1,10}$";
    assert "\"" + (a + b) + "\"))" == ("\"" + a) + (b + "\"))");
    assert "\"" + a == "\"^[0-9]{8}T[0-9]{6}Z-" && b + "\"))" == "sbc[12]-[0-9]{1,10}$\"))";
  }

  lemma FinalAgrees(token: string, outcome: string, indentation: nat)
    ensures CdrFinal(token, outcome, indentation) == SyntheticFinal(token, outcome, indentation)
  {
    assert "\"" + SYNTHETIC_CDR_MARKER == "\"VIVO_SYNTHETIC_CDR_V1";
  }

  lemma HeadingAgrees(r: Route)
    ensures Heading(r) == Flatten(Opening(r, SPELLED))
  {
    Decimal2223();
    TitleAgrees();
    assert "\"udp:" + RTPENGINE_NG_HOST + ":" + "2223" + "\")" == "\"udp:" + "127.0.0.1:2223" + "\")";
    hide Decimal;
    Flatten3(Title(), SignedLines(r), Socket(SPELLED.control));
    hide Flatten;
    assert Heading(r)[..3] == Title();
    assert Heading(r)[3..5] == SignedLines(r) by {
      assert ["####"] + ["Signed", "OPTIONS", "interval", "seconds:", Decimal(r.interval)]
          == ["####", "Signed", "OPTIONS", "interval", "seconds:", Decimal(r.interval)];
      var range := Decimal(r.mediaStart) + "-" + Decimal(r.mediaEnd);
      assert ["####"] + ["Signed", "PBX", "media", "destination", "UDP", "ports:", range]
          == ["####", "Signed", "PBX", "media", "destination", "UDP", "ports:", range];
    }
    assert Heading(r)[5..] == Socket(SPELLED.control);
  }

  lemma TitleAgrees()
    ensures Title() == [
      Line(0, ["####", "Vivolution", "generated", "tenant", "fragment", "v0.1"]),
      Line(0, ["####", "This", "file", "contains", "no", "certificate,", "key,", "password,", "token,", "path,",
        "unit,", "or", "package", "input."]),
      Line(0, ["####", "It", "requires", "a", "reviewed", "shared", "dispatcher,", "TLS", "domains", "and",
        "the", "modules", "listed", "below."])]
  {
    assert ["####"] + ["Vivolution", "generated", "tenant", "fragment", "v0.1"]
        == ["####", "Vivolution", "generated", "tenant", "fragment", "v0.1"];
    assert ["####"] + ["This", "file", "contains", "no", "certificate,", "key,", "password,", "token,", "path,", "unit,", "or",
                       "package", "input."]
        == ["####", "This", "file", "contains", "no", "certificate,", "key,", "password,", "token,", "path,", "unit,", "or",
            "package", "input."];
    assert ["####"] + ["It", "requires", "a", "reviewed", "shared", "dispatcher,", "TLS", "domains", "and", "the", "modules",
                       "listed", "below."]
        == ["####", "It", "requires", "a", "reviewed", "shared", "dispatcher,", "TLS", "domains", "and", "the", "modules",
            "listed", "below."];
  }

  lemma Flatten3(a: Program, b: Program, c: Program)
    ensures Flatten([a, b, c]) == a + b + c
  {
    assert [a, b, c][1..] == [b, c] && [b, c][1..] == [c] && [c][1..] == [];
    assert Flatten([c]) == c + [];
  }

  // ---------------------------------------------------------------- words with names in them

  lemma TeamsNames(token: string)
    ensures "route[VIVO_" + token + "_TEAMS_TO_PBX]" == "route[VIVO_" + (token + "_TEAMS_TO_PBX") + "]"
  {
    assert "_TEAMS_TO_PBX]" == "_TEAMS_TO_PBX" + "]";
  }

  lemma PbxNames(token: string)
    ensures "route[VIVO_" + token + "_PBX_TO_TEAMS]" == "route[VIVO_" + (token + "_PBX_TO_TEAMS") + "]"
  {
    assert "_PBX_TO_TEAMS]" == "_PBX_TO_TEAMS" + "]";
  }

  lemma HookNames(token: string)
    ensures "t_on_reply(\"VIVO_" + token + "_MEDIA_REPLY\");" == "t_on_reply(\"VIVO_" + (token + "_MEDIA_REPLY") + "\");"
    ensures "t_on_failure(\"VIVO_" + token + "_MEDIA_FAILURE\");" == "t_on_failure(\"VIVO_" + (token + "_MEDIA_FAILURE") + "\");"
    ensures "onreply_route[VIVO_" + token + "_MEDIA_REPLY]" == "onreply_route[VIVO_" + (token + "_MEDIA_REPLY") + "]"
  {
    assert "_MEDIA_REPLY\");" == "_MEDIA_REPLY" + "\");" && "_MEDIA_FAILURE\");" == "_MEDIA_FAILURE" + "\");";
    assert "_MEDIA_REPLY]" == "_MEDIA_REPLY" + "]";
  }

  lemma UriWord(host: string, port: string)
    ensures "\"" + ("sip:" + host + ":" + port + ";transport=tls") + "\";" == Uri(host, port)
  {
    assert "\"" + "sip:" == "\"sip:" && ";transport=tls" + "\";" == ";transport=tls\";";
  }

  lemma PrefixWord(digits: string)
    ensures "\"" + ("^[+]" + digits + "[0-9]*$") + "\"))" == "\"^[+]" + digits + "[0-9]*$\"))"
  {
    assert "\"" + "^[+]" == "\"^[+]" && "[0-9]*$" + "\"))" == "[0-9]*$\"))";
  }

  // ---------------------------------------------------------------- the routes

  lemma TeamsChecksAgree(token: string, digits: string)
    ensures TeamsChecks(token, "^[+]" + digits + "[0-9]*$")
         == Ingress(token + "_TEAMS_TO_PBX", "5061") + MethodTest() + [PrefixTest(digits)] + NoRoute()
  {
    TeamsNames(token);
    PrefixWord(digits);
    Decimal5061();
    hide Decimal;
  }

  lemma PbxChecksAgree(token: string, digits: string)
    ensures PbxChecks(token, "^[+]" + digits + "[0-9]*$")
         == Ingress(token + "_PBX_TO_TEAMS", "15061") + MethodTest() + [PrefixTest(digits)] + NoRoute()
  {
    PbxNames(token);
    PrefixWord(digits);
    Decimal15061();
    hide Decimal;
  }

  lemma OfferAgrees()
    ensures Offer(ANY_INTERFACE)
         == Line(8, ["if", "(!rtpengine_offer(\"replace-origin", "replace-session-connection", "ICE=remove\"))", "{"])
    ensures Answer(ANY_INTERFACE)
         == Line(8, ["if", "(!rtpengine_answer(\"replace-origin", "replace-session-connection", "ICE=remove\"))", "{"])
  {
  }

  lemma CallsAgree(host: string, port: string)
    ensures var uri := "sip:" + host + ":" + port + ";transport=tls";
      TeamsCall(uri) == PbxCall(uri) == [Destination(host, port)] + BeforeMedia() + [Offer(ANY_INTERFACE)]
  {
    UriWord(host, port);
    OfferAgrees();
    hide Uri, Offer;
  }

  /** The four lines that end the media block, the two hooks and the first two lines of the relay. */
  function Anchored(token: string): Program {
    [Line(12, ["send_reply(500,", "\"Media", "anchoring", "failed\");"]),
     Line(12, ["exit;"]), Line(8, [CLOSE]), Line(4, [CLOSE])]
    + [ReplyHook(token + "_MEDIA_REPLY")] + [FailureHook(token + "_MEDIA_FAILURE")]
    + [Line(4, ["if", "(!t_relay())", BRACE]), Line(8, ["rtpengine_delete();"])]
  }

  lemma AnchoredAgree(token: string)
    ensures TeamsAnchored(token) == PbxAnchored(token) == Anchored(token)
  {
    HookNames(token);
  }

  lemma EndsAgree()
    ensures TeamsEnd() == PbxEnd()
         == [Line(8, ["sl_reply_error();"]), Line(4, [CLOSE]), Line(4, ["exit;"]), Line(0, [CLOSE]), BLANK]
  {
  }

  lemma Flatten4(a: Program, b: Program, c: Program, d: Program)
    ensures Flatten([a, b, c, d]) == a + b + c + d
  {
    assert [a, b, c, d][1..] == [b, c, d];
    Flatten3(b, c, d);
    assert a + (b + c + d) == a + b + c + d;
  }

  const RELAY_END: Program := [Line(8, ["sl_reply_error();"]), Line(4, [CLOSE]), Line(4, ["exit;"]), Line(0, [CLOSE]), BLANK]

  /** A route of the runtime's program, regrouped as the template reads. */
  lemma DirectionReads(token: string, prefix: string, name: string, port: string, fixture: string, target: Line)
    ensures Flatten(Direction(token, prefix, name, port, fixture, GenericLeg(token, target)))
         == (Ingress(token + name, port) + MethodTest() + [PrefixTest(prefix)] + NoRoute())
          + SyntheticStart(token, fixture) + ([target] + BeforeMedia() + [Offer(ANY_INTERFACE)])
          + SyntheticFinal(token, "MEDIA_ANCHOR_FAILED", 12) + Anchored(token) + SyntheticFinal(token, "RELAY_FAILED", 8) + RELAY_END
  {
    hide Flatten, Ingress, SyntheticStart, SyntheticFinal, MethodTest, PrefixTest, NoRoute, BeforeMedia, Offer, AfterMedia, Relay, Anchored,
         ReplyHook, FailureHook;
    var leg := GenericLeg(token, target);
    var ingress, start := Ingress(token + name, port), SyntheticStart(token, fixture);
    var reply, failure := [leg.reply], [leg.failure];
    var parts := Direction(token, prefix, name, port, fixture, leg);
    var a := [ingress, MethodTest(), [PrefixTest(prefix)], NoRoute()];
    var b := [start, [target], BeforeMedia(), [leg.offer]];
    var c := [AfterMedia(token), reply, failure, Relay(token)];
    assert parts == a + b + c;
    hide Direction;
    FlattenConcat(a + b, c);
    FlattenConcat(a, b);
    Flatten4(ingress, MethodTest(), [PrefixTest(prefix)], NoRoute());
    Flatten4(start, [target], BeforeMedia(), [leg.offer]);
    Flatten4(AfterMedia(token), reply, failure, Relay(token));
    EndReads(token);
    Regrouped(ingress + MethodTest() + [PrefixTest(prefix)] + NoRoute(), start, [target], BeforeMedia(), [leg.offer],
      SyntheticFinal(token, "MEDIA_ANCHOR_FAILED", 12), Anchored(token), SyntheticFinal(token, "RELAY_FAILED", 8), RELAY_END);
  }

  lemma Regrouped(a: Program, b: Program, c: Program, d: Program, e: Program, f: Program, g: Program, h: Program, i: Program)
    ensures a + (b + c + d + e) + (f + g + h + i) == a + b + (c + d + e) + f + g + h + i
  {
    var x := c + d + e;
    assert b + c + d + e == b + x;
    assert a + (b + x) == a + b + x;
    var y := a + b + x;
    assert y + (f + g + h + i) == y + f + g + h + i;
  }

  lemma EndReads(token: string)
    ensures AfterMedia(token) + [ReplyHook(token + "_MEDIA_REPLY")] + [FailureHook(token + "_MEDIA_FAILURE")] + Relay(token)
         == SyntheticFinal(token, "MEDIA_ANCHOR_FAILED", 12) + Anchored(token) + SyntheticFinal(token, "RELAY_FAILED", 8) + RELAY_END
  {
    hide SyntheticFinal, ReplyHook, FailureHook;
  }

  lemma TeamsRouteAgrees(r: Route)
    ensures TeamsRoute(r.token, "^[+]" + r.prefix + "[0-9]*$", "sip:" + r.host + ":" + Decimal(r.port) + ";transport=tls")
         == Flatten(Outbound(r, SPELLED, GenericLeg(r.token, Destination(r.host, Decimal(r.port)))))
  {
    TeamsChecksAgree(r.token, r.prefix);
    StartAgrees(r.token, "TEAMS_FIXTURE_TO_PBX_FIXTURE");
    CallsAgree(r.host, Decimal(r.port));
    FinalAgrees(r.token, "MEDIA_ANCHOR_FAILED", 12);
    AnchoredAgree(r.token);
    FinalAgrees(r.token, "RELAY_FAILED", 8);
    EndsAgree();
    DirectionReads(r.token, r.prefix, "_TEAMS_TO_PBX", "5061", "TEAMS_FIXTURE_TO_PBX_FIXTURE", Destination(r.host, Decimal(r.port)));
    hide Flatten, Direction, Ingress, SyntheticStart, SyntheticFinal, MethodTest, PrefixTest, NoRoute, BeforeMedia, Offer, Anchored,
         TeamsChecks, CdrStart, TeamsCall, CdrFinal, TeamsAnchored, TeamsEnd, Destination, GenericLeg, Decimal;
  }

  lemma PbxRouteAgrees(r: Route)
    ensures PbxRoute(r.token, "^[+]" + r.prefix + "[0-9]*$", "sip:" + TEAMS_PRIMARY_UPSTREAM + ":" + Decimal(TEAMS_TLS_PORT) + ";transport=tls")
         == Flatten(Inbound(r, SPELLED, GenericLeg(r.token, Destination(TEAMS_HUBS[0], "5061"))))
  {
    PbxChecksAgree(r.token, r.prefix);
    StartAgrees(r.token, "PBX_FIXTURE_TO_TEAMS_FIXTURE");
    Decimal5061();
    CallsAgree(TEAMS_PRIMARY_UPSTREAM, "5061");
    FinalAgrees(r.token, "MEDIA_ANCHOR_FAILED", 12);
    AnchoredAgree(r.token);
    FinalAgrees(r.token, "RELAY_FAILED", 8);
    EndsAgree();
    DirectionReads(r.token, r.prefix, "_PBX_TO_TEAMS", "15061", "PBX_FIXTURE_TO_TEAMS_FIXTURE", Destination(TEAMS_HUBS[0], "5061"));
    hide Flatten, Direction, Ingress, SyntheticStart, SyntheticFinal, MethodTest, PrefixTest, NoRoute, BeforeMedia, Offer, Anchored,
         PbxChecks, CdrStart, PbxCall, CdrFinal, PbxAnchored, PbxEnd, Destination, GenericLeg, Decimal;
  }

  lemma RepliesAgree(token: string)
    ensures MediaReply(token) == ReplyRoute(token, token + "_MEDIA_REPLY", ANY_INTERFACE) + [BLANK]
    ensures MediaFailure(token) == FailureRoute(token)
  {
    HookNames(token);
    OfferAgrees();
    FinalAgrees(token, "MEDIA_ANCHOR_FAILED", 12);
    FinalAgrees(token, "ACCEPTED", 8);
    FinalAgrees(token, "SIP_FAILURE", 4);
    hide SyntheticFinal, CdrFinal, Answer;
    assert ReplyStart(token) == ReplyOpening(token + "_MEDIA_REPLY", ANY_INTERFACE);
    assert ReplyEnding() == ReplyEnd() + [BLANK];
  }

  /** The runtime's program, route by route. */
  lemma PartsRead(r: Route)
    ensures Flatten(GenericParts(r, SPELLED, TEAMS_HUBS[0]))
         == Flatten(Opening(r, SPELLED))
          + Flatten(Outbound(r, SPELLED, GenericLeg(r.token, Destination(r.host, Decimal(r.port)))))
          + Flatten(Inbound(r, SPELLED, GenericLeg(r.token, Destination(TEAMS_HUBS[0], "5061"))))
          + (ReplyRoute(r.token, r.token + "_MEDIA_REPLY", ANY_INTERFACE) + [BLANK]) + FailureRoute(r.token)
  {
    var a := Opening(r, SPELLED);
    var b := Outbound(r, SPELLED, GenericLeg(r.token, Destination(r.host, Decimal(r.port))));
    var c := Inbound(r, SPELLED, GenericLeg(r.token, Destination(TEAMS_HUBS[0], "5061")));
    var replies, tail := ReplyRoute(r.token, r.token + "_MEDIA_REPLY", ANY_INTERFACE), FailureRoute(r.token);
    hide Opening, Outbound, Inbound, GenericLeg, Destination, ReplyRoute, FailureRoute, Decimal;
    assert GenericParts(r, SPELLED, TEAMS_HUBS[0]) == a + b + c + [replies, [BLANK], tail];
    FlattenConcat(a + b + c, [replies, [BLANK], tail]);
    FlattenConcat(a + b, c);
    FlattenConcat(a, b);
    Flatten3(replies, [BLANK], tail);
    hide Flatten;
    assert Flatten(a + b + c) + (replies + [BLANK] + tail) == Flatten(a + b + c) + (replies + [BLANK]) + tail;
  }

  /** The two renderers agree line by line on every route that either may render. */
  lemma RenderersAgree(r: Route)
    requires Renderable(r)
    ensures CompilerFragment(r) == Some(RenderOpensips(r))
  {
    PartsRead(r);
    HeadingAgrees(r);
    TeamsRouteAgrees(r);
    PbxRouteAgrees(r);
    RepliesAgree(r.token);
    hide Flatten, GenericParts, Opening, Outbound, Inbound, GenericLeg, Destination, ReplyRoute, FailureRoute, Heading, TeamsRoute,
         PbxRoute, MediaReply, MediaFailure, Decimal;
  }
}
