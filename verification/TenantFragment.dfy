/**
 The generated tenant route program as the runtime renders it for comparison (edge/runtime/contracts.py,
 `_compiler_fragment`), in the parts that its rewriting works on.
 */
module TenantFragment {
  import opened Options
  import opened TextLines
  import opened Decimals

  // ---------------------------------------------------------------- routes and hosts

  datatype Route = Route(
    token: string, host: string, port: nat, prefix: string, interval: nat, mediaStart: nat, mediaEnd: nat)

  const OPTIONS_INTERVAL := 60
  const TEAMS_HUBS: seq<string> := ["sip.pstnhub.microsoft.com", "sip2.pstnhub.microsoft.com", "sip3.pstnhub.microsoft.com"]

  predicate LabelChar(c: char) {
    'a' <= c <= 'z' || Digit(c) || c == '-'
  }

  predicate Label(s: string) {
    1 <= |s| <= 63 && s[0] != '-' && s[|s| - 1] != '-' && forall i | 0 <= i < |s| :: LabelChar(s[i])
  }

  /** The labels of a name, as `str.split(".")` gives them. */
  function Labels(s: string): (r: seq<string>)
    ensures r != []
  {
    if s == "" then [""]
    else
      var rest := Labels(s[1..]);
      if s[0] == '.' then [""] + rest else [[s[0]] + rest[0]] + rest[1..]
  }

  /** A canonical lower-case name or a canonical IPv4 literal: both are at least two labels. */
  predicate StrictHost(s: string) {
    1 <= |s| <= 253 && |Labels(s)| >= 2 && forall i | 0 <= i < |Labels(s)| :: Label(Labels(s)[i])
  }

  predicate HostChars(s: string) {
    forall i | 0 <= i < |s| :: s[i] == '.' || LabelChar(s[i])
  }

  lemma {:induction false} LabelsCoverHost(s: string)
    requires forall i | 0 <= i < |Labels(s)| :: forall k | 0 <= k < |Labels(s)[i]| :: LabelChar(Labels(s)[i][k])
    ensures HostChars(s)
    decreases |s|
  {
    if s != "" {
      var all, rest := Labels(s), Labels(s[1..]);
      if s[0] == '.' {
        forall i | 0 <= i < |rest| ensures forall k | 0 <= k < |rest[i]| :: LabelChar(rest[i][k]) {
          assert rest[i] == all[i + 1];
        }
      } else {
        assert all[0][0] == s[0];
        forall i | 0 <= i < |rest| ensures forall k | 0 <= k < |rest[i]| :: LabelChar(rest[i][k]) {
          if i == 0 {
            forall k | 0 <= k < |rest[0]| ensures LabelChar(rest[0][k]) { assert rest[0][k] == all[0][k + 1]; }
          } else {
            assert rest[i] == all[i];
          }
        }
      }
      LabelsCoverHost(s[1..]);
      forall i | 0 <= i < |s| ensures s[i] == '.' || LabelChar(s[i]) {
        if i > 0 { assert s[i] == s[1..][i - 1]; }
      }
    }
  }

  lemma StrictHostChars(s: string)
    requires StrictHost(s)
    ensures HostChars(s) && ':' !in s && ';' !in s && ' ' !in s && '"' !in s && '\n' !in s
  {
    forall i | 0 <= i < |Labels(s)| ensures forall k | 0 <= k < |Labels(s)[i]| :: LabelChar(Labels(s)[i][k]) {
      assert Label(Labels(s)[i]);
    }
    LabelsCoverHost(s);
  }

  /** The media range check of the renderer: an even start, an odd end. */
  predicate Renderable(r: Route) {
    r.interval == OPTIONS_INTERVAL && r.mediaStart % 2 == 0 && r.mediaEnd % 2 == 1 && r.mediaStart <= r.mediaEnd
  }

  // ---------------------------------------------------------------- the lines of the program

  const BRACE := "{"
  const CLOSE := "}"

  function Comment(words: seq<string>): Line {
    Line(0, ["####"] + words)
  }

  function Uri(host: string, port: string): string {
    "\"sip:" + host + ":" + port + ";transport=tls\";"
  }

  function Destination(host: string, port: string): Line {
    Line(4, ["$du", "=", Uri(host, port)])
  }

  function PrefixTest(digits: string): Line {
    Line(4, ["if", "(!($rU", "=~", "\"^[+]" + digits + "[0-9]*$\"))", BRACE])
  }

  function MediaCall(call: string, last: seq<string>): Line {
    Line(8, ["if", call, "replace-session-connection"] + last + [BRACE])
  }

  const OFFER_CALL := "(!rtpengine_offer(\"replace-origin"
  const ANSWER_CALL := "(!rtpengine_answer(\"replace-origin"

  function Offer(last: seq<string>): Line {
    MediaCall(OFFER_CALL, last)
  }

  function Answer(last: seq<string>): Line {
    MediaCall(ANSWER_CALL, last)
  }

  const ANY_INTERFACE: seq<string> := ["ICE=remove\"))"]

  function ReplyHook(name: string): Line {
    Line(4, ["t_on_reply(\"VIVO_" + name + "\");"])
  }

  function FailureHook(name: string): Line {
    Line(4, ["t_on_failure(\"VIVO_" + name + "\");"])
  }

  function SyntheticStart(token: string, direction: string): Program {
    [Line(0, ["#!ifdef", "VIVO_SYNTHETIC_CDR"]),
     Line(4, ["if", "($hdr(X-Vivolution-Fixture)", "==", "\"no-pstn\"", "&&"]),
     Line(8, ["($hdr(X-Vivolution-Test-ID)", "=~", "\"^[0-9]{8}T[0-9]{6}Z-" + "sbc[12]-[0-9]{1,10}$\"))", BRACE]),
     Line(8, ["$avp(vivo_synth_test_id)", "=", "$hdr(X-Vivolution-Test-ID);"]),
     Line(8, ["$avp(vivo_synth_direction)", "=", "\"" + direction + "\";"]),
     Line(8, ["$avp(vivo_synth_final_logged)", "=", "0;"]),
     Line(8, ["xlog(\"L_NOTICE\",", "\"VIVO_SYNTHETIC_CDR_V1" + "|event=START|route=" + token + "|direction="
       + "$avp(vivo_synth_direction)" + "|test_id=" + "$avp(vivo_synth_test_id)" + "\\n\");"]),
     Line(4, [CLOSE]),
     Line(0, ["#!endif"])]
  }

  function SyntheticFinal(token: string, outcome: string, indent: nat): Program {
    [Line(0, ["#!ifdef", "VIVO_SYNTHETIC_CDR"]),
     Line(indent, ["if", "($avp(vivo_synth_test_id)", "!=", "NULL", "&&"]),
     Line(indent + 4, ["$avp(vivo_synth_final_logged)", "==", "0)", BRACE]),
     Line(indent + 4, ["xlog(\"L_NOTICE\",", "\"VIVO_SYNTHETIC_CDR_V1" + "|event=FINAL|route=" + token + "|direction="
       + "$avp(vivo_synth_direction)" + "|test_id=" + "$avp(vivo_synth_test_id)" + "|result=" + outcome + "\\n\");"]),
     Line(indent + 4, ["$avp(vivo_synth_final_logged)", "=", "1;"]),
     Line(indent, [CLOSE]),
     Line(0, ["#!endif"])]
  }

  function SignedLines(r: Route): Program {
    [Comment(["Signed", "OPTIONS", "interval", "seconds:", Decimal(r.interval)]),
     Comment(["Signed", "PBX", "media", "destination", "UDP", "ports:", Decimal(r.mediaStart) + "-" + Decimal(r.mediaEnd)])]
  }

  function Title(): Program {
    [Comment(["Vivolution", "generated", "tenant", "fragment", "v0.1"]),
     Comment(["This", "file", "contains", "no", "certificate,", "key,", "password,", "token,", "path,", "unit,", "or", "package",
              "input."]),
     Comment(["It", "requires", "a", "reviewed", "shared", "dispatcher,", "TLS", "domains", "and", "the", "modules", "listed",
              "below."])]
  }

  function Socket(control: string): Program {
    [BLANK, Line(0, ["modparam(\"rtpengine\",", "\"rtpengine_sock\",", "\"udp:" + control + "\")"]), BLANK]
  }

  /** The checks every route starts with, up to the called-number test. */
  function Ingress(name: string, port: string): Program {
    [Line(0, ["route[VIVO_" + name + "]", BRACE]),
     Line(4, ["if", "($socket_in(port)", "!=", port + ")", BRACE]),
     Line(8, ["send_reply(403,", "\"Wrong", "ingress\");"]),
     Line(8, ["exit;"]),
     Line(4, [CLOSE]),
     Line(4, ["if", "(is_method(\"OPTIONS\"))", BRACE]),
     Line(8, ["send_reply(200,", "\"OK\");"]),
     Line(8, ["exit;"]),
     Line(4, [CLOSE])]
  }

  function MethodTest(): Program {
    [Line(4, ["if", "(!is_method(\"INVITE\"))", BRACE]),
     Line(8, ["send_reply(405,", "\"Method", "not", "allowed\");"]),
     Line(8, ["exit;"]),
     Line(4, [CLOSE])]
  }

  function NoRoute(): Program {
    [Line(8, ["send_reply(404,", "\"No", "tenant", "route\");"]),
     Line(8, ["exit;"]),
     Line(4, [CLOSE])]
  }

  function BeforeMedia(): Program {
    [Line(4, ["record_route();"]),
     Line(4, ["if", "(has_body(\"application/sdp\"))", BRACE])]
  }

  function AfterMedia(token: string): Program {
    SyntheticFinal(token, "MEDIA_ANCHOR_FAILED", 12)
    + [Line(12, ["send_reply(500,", "\"Media", "anchoring", "failed\");"]),
       Line(12, ["exit;"]),
       Line(8, [CLOSE]),
       Line(4, [CLOSE])]
  }

  function Relay(token: string): Program {
    [Line(4, ["if", "(!t_relay())", BRACE]), Line(8, ["rtpengine_delete();"])]
    + SyntheticFinal(token, "RELAY_FAILED", 8)
    + [Line(8, ["sl_reply_error();"]), Line(4, [CLOSE]), Line(4, ["exit;"]), Line(0, [CLOSE]), BLANK]
  }

  /** What differs between the two directions, and between a compiled and a running program. */
  datatype Leg = Leg(destination: Program, offer: Line, reply: Line, failure: Line)

  /** One route of the program, in parts. */
  function Direction(token: string, prefix: string, name: string, port: string, fixture: string, leg: Leg): seq<Program> {
    [Ingress(token + name, port), MethodTest(), [PrefixTest(prefix)], NoRoute(), SyntheticStart(token, fixture),
     leg.destination, BeforeMedia(), [leg.offer], AfterMedia(token), [leg.reply], [leg.failure], Relay(token)]
  }

  function ReplyOpening(name: string, last: seq<string>): Program {
    [Line(0, ["onreply_route[VIVO_" + name + "]", BRACE]),
     Line(4, ["if", "(t_check_status(\"[12][0-9][0-9]\")", "&&", "has_body(\"application/sdp\"))", BRACE]),
     Answer(last)]
  }

  function ReplyMiddle(): Program {
    [Line(12, ["drop;"]), Line(8, [CLOSE]), Line(4, [CLOSE]), Line(4, ["if", "(t_check_status(\"2[0-9][0-9]\"))", BRACE])]
  }

  function ReplyEnd(): Program {
    [Line(4, [CLOSE]), Line(0, [CLOSE])]
  }

  function ReplyRoute(token: string, name: string, last: seq<string>): Program {
    ReplyOpening(name, last) + SyntheticFinal(token, "MEDIA_ANCHOR_FAILED", 12) + ReplyMiddle()
    + SyntheticFinal(token, "ACCEPTED", 8) + ReplyEnd()
  }

  function FailureRoute(token: string): Program {
    [Line(0, ["failure_route[VIVO_" + token + "_MEDIA_FAILURE]", BRACE])]
    + SyntheticFinal(token, "SIP_FAILURE", 4)
    + [Line(4, ["rtpengine_delete();"]), Line(0, [CLOSE])]
  }

  /** The constants that the runtime's program spells out. */
  datatype Constants = Constants(control: string, teamsPort: string, pbxPort: string)

  function Opening(r: Route, c: Constants): seq<Program> {
    [Title(), SignedLines(r), Socket(c.control)]
  }

  function Outbound(r: Route, c: Constants, leg: Leg): seq<Program> {
    Direction(r.token, r.prefix, "_TEAMS_TO_PBX", c.teamsPort, "TEAMS_FIXTURE_TO_PBX_FIXTURE", leg)
  }

  function Inbound(r: Route, c: Constants, leg: Leg): seq<Program> {
    Direction(r.token, r.prefix, "_PBX_TO_TEAMS", c.pbxPort, "PBX_FIXTURE_TO_TEAMS_FIXTURE", leg)
  }

  function Skeleton(r: Route, c: Constants, toPbx: Leg, toTeams: Leg, replies: Program, tail: Program): seq<Program> {
    Opening(r, c) + Outbound(r, c, toPbx) + Inbound(r, c, toTeams) + [replies, [BLANK], tail]
  }

  function GenericLeg(token: string, destination: Line): Leg {
    Leg([destination], Offer(ANY_INTERFACE), ReplyHook(token + "_MEDIA_REPLY"), FailureHook(token + "_MEDIA_FAILURE"))
  }

  function GenericParts(r: Route, c: Constants, hub: string): seq<Program> {
    Skeleton(r, c, GenericLeg(r.token, Destination(r.host, Decimal(r.port))), GenericLeg(r.token, Destination(hub, c.teamsPort)),
      ReplyRoute(r.token, r.token + "_MEDIA_REPLY", ANY_INTERFACE), FailureRoute(r.token))
  }

  /** The runtime's mirror of the compiler's program; failure when the route breaks the reviewed values. */
  const SPELLED := Constants("127.0.0.1:2223", "5061", "15061")

  function CompilerFragment(r: Route): Option<Program> {
    if !Renderable(r) then None else Some(Flatten(GenericParts(r, SPELLED, TEAMS_HUBS[0])))
  }

  // ---------------------------------------------------------------- what kind of line a line is

  datatype Kind = Prose | Header | Test | Target | OfferKind | AnswerKind | OnReply | OnFailure | ReplyHead | FailureHead

  function KindOf(l: Line): Kind {
    if l.words == [] then Prose
    else
      var w := l.words[0];
      if w == "####" then Header
      else if w == "$du" then Target
      else if w == "if" && |l.words| > 1 && |l.words[1]| > 3 then
        var call := l.words[1];
        if call[2] == '(' then Test
        else if call[2] == 'r' && |call| > 12 then (if call[12] == 'o' then OfferKind else AnswerKind)
        else Prose
      else if |w| > 5 && w[0] == 't' && w[1] == '_' then (if w[5] == 'r' then OnReply else OnFailure)
      else if |w| > 1 && w[0] == 'o' then ReplyHead
      else if |w| > 1 && w[0] == 'f' && w[1] == 'a' then FailureHead
      else Prose
  }

  predicate Only(s: Program, kinds: set<Kind>) {
    forall i | 0 <= i < |s| :: KindOf(s[i]) in kinds
  }

  lemma SyntheticStartKinds(token: string, direction: string)
    ensures Only(SyntheticStart(token, direction), {Prose})
  {
  }

  lemma SyntheticFinalKinds(token: string, outcome: string, indent: nat)
    ensures Only(SyntheticFinal(token, outcome, indent), {Prose})
  {
  }

  lemma OpeningKinds(r: Route, control: string)
    ensures Only(Title(), {Header}) && Only(SignedLines(r), {Header}) && Only(Socket(control), {Prose})
  {
  }

  lemma IngressKinds(name: string, port: string)
    ensures Only(Ingress(name, port), {Prose})
  {
  }

  lemma RefusalKinds()
    ensures Only(MethodTest(), {Prose}) && Only(NoRoute(), {Prose}) && Only(BeforeMedia(), {Prose})
  {
  }

  lemma AfterMediaKinds(token: string)
    ensures Only(AfterMedia(token), {Prose})
  {
    SyntheticFinalKinds(token, "MEDIA_ANCHOR_FAILED", 12);
    hide SyntheticFinal;
  }

  lemma RelayKinds(token: string)
    ensures Only(Relay(token), {Prose})
  {
    SyntheticFinalKinds(token, "RELAY_FAILED", 8);
    hide SyntheticFinal;
  }

  lemma RouteLineKinds(host: string, port: string, digits: string)
    ensures KindOf(Destination(host, port)) == Target && KindOf(PrefixTest(digits)) == Test
  {
  }

  lemma MediaCallKinds(last: seq<string>)
    ensures KindOf(Offer(last)) == OfferKind && KindOf(Answer(last)) == AnswerKind
  {
  }

  lemma HookKinds(name: string)
    ensures KindOf(ReplyHook(name)) == OnReply && KindOf(FailureHook(name)) == OnFailure
  {
    assert ("t_on_reply(\"VIVO_" + name + "\");")[5] == "t_on_reply(\"VIVO_"[5];
    assert ("t_on_failure(\"VIVO_" + name + "\");")[5] == "t_on_failure(\"VIVO_"[5];
  }

  lemma ReplyRouteKinds(token: string, name: string, last: seq<string>)
    ensures KindOf(ReplyRoute(token, name, last)[0]) == ReplyHead
    ensures Only(ReplyRoute(token, name, last)[1..], {Prose, AnswerKind})
  {
    SyntheticFinalKinds(token, "MEDIA_ANCHOR_FAILED", 12);
    SyntheticFinalKinds(token, "ACCEPTED", 8);
    ReplyOpeningKinds(name, last);
    ReplyMiddleKinds();
    hide SyntheticFinal, KindOf;
    var lines := ReplyRoute(token, name, last);
    var opening := ReplyOpening(name, last);
    var rest := SyntheticFinal(token, "MEDIA_ANCHOR_FAILED", 12) + ReplyMiddle() + SyntheticFinal(token, "ACCEPTED", 8) + ReplyEnd();
    assert lines == opening + rest;
    assert lines[1..] == opening[1..] + rest;
  }

  lemma ReplyOpeningKinds(name: string, last: seq<string>)
    ensures KindOf(ReplyOpening(name, last)[0]) == ReplyHead && Only(ReplyOpening(name, last)[1..], {Prose, AnswerKind})
  {
    MediaCallKinds(last);
    hide Answer;
  }

  lemma ReplyMiddleKinds()
    ensures Only(ReplyMiddle(), {Prose}) && Only(ReplyEnd(), {Prose})
  {
  }

  lemma FailureRouteKinds(token: string)
    ensures KindOf(FailureRoute(token)[0]) == FailureHead
    ensures Only(FailureRoute(token)[1..], {Prose})
  {
    SyntheticFinalKinds(token, "SIP_FAILURE", 4);
    hide SyntheticFinal;
  }

  // ---------------------------------------------------------------- the kinds of the parts

  function DirectionKinds(i: nat): set<Kind> {
    match i
    case 2 => {Test}
    case 5 => {Prose, Target}
    case 7 => {OfferKind}
    case 9 => {OnReply}
    case 10 => {OnFailure}
    case _ => {Prose}
  }

  function PartKinds(i: nat): set<Kind> {
    if i < 2 then {Header}
    else if i == 2 || i == 28 then {Prose}
    else if i < 15 then DirectionKinds(i - 3)
    else if i < 27 then DirectionKinds(i - 15)
    else if i == 27 then {Prose, AnswerKind, ReplyHead}
    else {Prose, FailureHead}
  }

  predicate ProperLeg(leg: Leg) {
    && Only(leg.destination, {Prose, Target}) && KindOf(leg.offer) == OfferKind
    && KindOf(leg.reply) == OnReply && KindOf(leg.failure) == OnFailure
  }

  lemma DirectionHasKinds(token: string, prefix: string, name: string, port: string, fixture: string, leg: Leg)
    requires ProperLeg(leg)
    ensures var parts := Direction(token, prefix, name, port, fixture, leg);
      forall i | 0 <= i < 12 :: Only(parts[i], DirectionKinds(i))
  {
    IngressKinds(token + name, port);
    RefusalKinds();
    RouteLineKinds("", "", prefix);
    SyntheticStartKinds(token, fixture);
    AfterMediaKinds(token);
    RelayKinds(token);
    hide KindOf, Ingress, MethodTest, NoRoute, PrefixTest, SyntheticStart, BeforeMedia, AfterMedia, Relay;
  }

  predicate HasKinds(parts: seq<Program>) {
    |parts| == 30 && forall i | 0 <= i < 30 :: Only(parts[i], PartKinds(i))
  }

  lemma SkeletonHasKinds(r: Route, c: Constants, toPbx: Leg, toTeams: Leg, replies: Program, tail: Program)
    requires ProperLeg(toPbx) && ProperLeg(toTeams)
    requires Only(replies, {Prose, AnswerKind, ReplyHead}) && Only(tail, {Prose, FailureHead})
    ensures HasKinds(Skeleton(r, c, toPbx, toTeams, replies, tail))
  {
    OpeningKinds(r, c.control);
    DirectionHasKinds(r.token, r.prefix, "_TEAMS_TO_PBX", c.teamsPort, "TEAMS_FIXTURE_TO_PBX_FIXTURE", toPbx);
    DirectionHasKinds(r.token, r.prefix, "_PBX_TO_TEAMS", c.pbxPort, "PBX_FIXTURE_TO_TEAMS_FIXTURE", toTeams);
    assert Only([BLANK], {Prose});
    hide Only, KindOf, Title, SignedLines, Socket, DirectionKinds;
    var out, inn := Outbound(r, c, toPbx), Inbound(r, c, toTeams);
    var parts := Skeleton(r, c, toPbx, toTeams, replies, tail);
    assert |out| == 12 && |inn| == 12;
    hide Direction, Outbound, Inbound;
    forall i | 0 <= i < 30 ensures Only(parts[i], PartKinds(i)) {
      if 3 <= i < 15 {
        assert parts[i] == out[i - 3];
      } else if 15 <= i < 27 {
        assert parts[i] == inn[i - 15];
      }
    }
  }

  lemma GenericHasKinds(r: Route, c: Constants, hub: string)
    ensures HasKinds(GenericParts(r, c, hub))
  {
    RouteLineKinds(r.host, Decimal(r.port), r.prefix);
    RouteLineKinds(hub, c.teamsPort, r.prefix);
    MediaCallKinds(ANY_INTERFACE);
    HookKinds(r.token + "_MEDIA_REPLY");
    HookKinds(r.token + "_MEDIA_FAILURE");
    ReplyRouteKinds(r.token, r.token + "_MEDIA_REPLY", ANY_INTERFACE);
    FailureRouteKinds(r.token);
    var replies, tail := ReplyRoute(r.token, r.token + "_MEDIA_REPLY", ANY_INTERFACE), FailureRoute(r.token);
    HeadAndRest(replies, ReplyHead, {Prose, AnswerKind});
    HeadAndRest(tail, FailureHead, {Prose});
    assert {ReplyHead} + {Prose, AnswerKind} == {Prose, AnswerKind, ReplyHead};
    assert {FailureHead} + {Prose} == {Prose, FailureHead};
    hide KindOf, ReplyRoute, FailureRoute, Destination, Offer, ReplyHook, FailureHook;
    SkeletonHasKinds(r, c, GenericLeg(r.token, Destination(r.host, Decimal(r.port))),
      GenericLeg(r.token, Destination(hub, c.teamsPort)), replies, tail);
  }

  lemma HeadAndRest(s: Program, head: Kind, rest: set<Kind>)
    requires s != [] && KindOf(s[0]) == head && Only(s[1..], rest)
    ensures Only(s, {head} + rest)
  {
    forall i | 0 <= i < |s| ensures KindOf(s[i]) in {head} + rest {
      if i > 0 { assert s[i] == s[1..][i - 1]; }
    }
  }
}
