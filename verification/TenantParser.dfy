/**
 The strict parser of the tenant route program, against its renderer
 (edge/runtime/contracts.py, `parse_compiler_fragment`).
 */
module TenantParser {
  import opened Options
  import opened TextLines
  import opened Decimals
  import opened TenantFragment
  import CompilerRenderer

  // ---------------------------------------------------------------- findall

  /** `re.findall` with a pattern anchored to whole lines. */
  function FindAll<T>(s: Program, f: Line -> Option<T>): seq<T> {
    if s == [] then []
    else (match f(s[0]) case Some(v) => [v] case None => []) + FindAll(s[1..], f)
  }

  lemma {:induction false} FindAllConcat<T>(a: Program, b: Program, f: Line -> Option<T>)
    ensures FindAll(a + b, f) == FindAll(a, f) + FindAll(b, f)
    decreases |a|
  {
    if a == [] {
      assert a + b == b;
    } else {
      var rest := a[1..];
      FindAllConcat(rest, b, f);
      assert (a + b)[0] == a[0] && (a + b)[1..] == rest + b;
      var first := match f(a[0]) case Some(v) => [v] case None => [];
      assert FindAll(a + b, f) == first + FindAll(rest + b, f);
      Associative(first, FindAll(rest, f), FindAll(b, f));
    }
  }

  lemma Associative<T>(a: seq<T>, b: seq<T>, c: seq<T>)
    ensures a + b + c == a + (b + c)
  {
  }

  lemma {:induction false} FindAllSilent<T>(s: Program, f: Line -> Option<T>)
    requires forall i | 0 <= i < |s| :: f(s[i]) == None
    ensures FindAll(s, f) == []
    decreases |s|
  {
    if s != [] {
      FindAllSilent(s[1..], f);
    }
  }

  predicate Silent<T>(parts: seq<Program>, f: Line -> Option<T>) {
    forall i | 0 <= i < |parts| :: FindAll(parts[i], f) == []
  }

  lemma {:induction false} FlattenSilent<T>(parts: seq<Program>, f: Line -> Option<T>)
    requires Silent(parts, f)
    ensures FindAll(Flatten(parts), f) == []
    decreases |parts|
  {
    if parts != [] {
      FlattenSilent(parts[1..], f);
      FindAllConcat(parts[0], Flatten(parts[1..]), f);
    }
  }

  lemma {:induction false} FindInOne<T>(parts: seq<Program>, i: nat, f: Line -> Option<T>)
    requires i < |parts| && Silent(parts[..i], f)
    ensures FindAll(Flatten(parts), f) == FindAll(parts[i], f) + FindAll(Flatten(parts[i + 1..]), f)
  {
    FlattenAround(parts, i);
    FlattenSilent(parts[..i], f);
    FindAllConcat(Flatten(parts[..i]) + parts[i], Flatten(parts[i + 1..]), f);
    FindAllConcat(Flatten(parts[..i]), parts[i], f);
  }

  /** At most the parts `i` and `j` hold something to find. */
  lemma {:induction false} FindInTwo<T>(parts: seq<Program>, i: nat, j: nat, f: Line -> Option<T>)
    requires i < j < |parts|
    requires forall k | 0 <= k < |parts| && k != i && k != j :: FindAll(parts[k], f) == []
    ensures FindAll(Flatten(parts), f) == FindAll(parts[i], f) + FindAll(parts[j], f)
  {
    hide FindAll, Flatten;
    FindInOne(parts, i, f);
    var rest, m := parts[i + 1..], j - i - 1;
    forall k | 0 <= k < m ensures FindAll(rest[..m][k], f) == [] {
      assert rest[..m][k] == parts[i + 1 + k];
    }
    FindInOne(rest, m, f);
    var after := rest[m + 1..];
    forall k | 0 <= k < |after| ensures FindAll(after[k], f) == [] {
      assert after[k] == parts[j + 1 + k];
    }
    FlattenSilent(after, f);
    assert rest[m] == parts[j];
  }

  // ---------------------------------------------------------------- the line patterns

  function LastIndex(s: string, c: char): (i: int)
    ensures -1 <= i < |s|
    ensures i >= 0 ==> s[i] == c
  {
    if s == "" then -1 else if s[|s| - 1] == c then |s| - 1 else LastIndex(s[..|s| - 1], c)
  }

  lemma {:induction false} LastIndexOf(a: string, c: char, b: string)
    requires c !in b
    ensures LastIndex(a + [c] + b, c) == |a|
    decreases |b|
  {
    var s := a + [c] + b;
    if b != "" {
      var b' := b[..|b| - 1];
      assert s[|s| - 1] == b[|b| - 1] && b[|b| - 1] in b;
      assert s[..|s| - 1] == a + [c] + b';
      LastIndexOf(a, c, b');
    }
  }

  predicate DigitsOf(s: string, low: nat, high: nat) {
    low <= |s| <= high && IsDigits(s)
  }

  const URI_START := "\"sip:"
  const URI_END := ";transport=tls\";"

  /** The text between a fixed start and a fixed end. */
  function Inner(w: string, start: string, end: string): Option<string> {
    if |start| + |end| <= |w| && w[..|start|] == start && w[|w| - |end|..] == end
    then Some(w[|start|..|w| - |end|]) else None
  }

  lemma InnerOf(start: string, m: string, end: string)
    ensures Inner(start + m + end, start, end) == Some(m)
  {
    var w := start + m + end;
    assert w[..|start|] == start && w[|w| - |end|..] == end && w[|start|..|w| - |end|] == m;
  }

  function HostPort(m: string): Option<(string, string)> {
    var i := LastIndex(m, ':');
    if i <= 0 then None
    else
      var host, digits := m[..i], m[i + 1..];
      if '"' !in host && ';' !in host && DigitsOf(digits, 1, 5) then Some((host, digits)) else None
  }

  function DestinationOf(l: Line): Option<(string, string)> {
    if l.indent == 4 && |l.words| == 3 && l.words[0] == "$du" && l.words[1] == "=" then
      match Inner(l.words[2], URI_START, URI_END)
      case Some(m) => HostPort(m)
      case None => None
    else None
  }

  const PREFIX_START := "\"^[+]"
  const PREFIX_END := "[0-9]*$\"))"

  function PrefixOf(l: Line): Option<string> {
    if l.indent == 4 && |l.words| == 5 && l.words[0] == "if" && l.words[1] == "(!($rU" && l.words[2] == "=~" && l.words[4] == BRACE then
      match Inner(l.words[3], PREFIX_START, PREFIX_END)
      case Some(m) => if DigitsOf(m, 1, 15) then Some(m) else None
      case None => None
    else None
  }

  function IntervalOf(l: Line): Option<string> {
    if l.indent == 0 && |l.words| == 6 && l.words[..5] == ["####", "Signed", "OPTIONS", "interval", "seconds:"] && DigitsOf(l.words[5], 1, 3)
    then Some(l.words[5]) else None
  }

  function RangeWord(w: string): Option<(string, string)> {
    var i := LastIndex(w, '-');
    if i < 0 then None
    else if DigitsOf(w[..i], 4, 5) && DigitsOf(w[i + 1..], 4, 5) then Some((w[..i], w[i + 1..]))
    else None
  }

  function MediaOf(l: Line): Option<(string, string)> {
    if l.indent == 0 && |l.words| == 8 && l.words[..7] == ["####", "Signed", "PBX", "media", "destination", "UDP", "ports:"]
    then RangeWord(l.words[7]) else None
  }

  // ---------------------------------------------------------------- the parser

  function WithoutHubs(found: seq<(string, string)>): seq<(string, string)> {
    if found == [] then []
    else (if found[0].0 in TEAMS_HUBS then [] else [found[0]]) + WithoutHubs(found[1..])
  }

  /** What the node facts contribute: the derived token and the media range. */
  datatype Expected = Expected(token: string, mediaStart: nat, mediaEnd: nat)

  function Parse(raw: Program, facts: Expected): Option<Route> {
    var targets := WithoutHubs(FindAll(raw, DestinationOf));
    if |targets| != 1 || !StrictHost(targets[0].0) || !IsDigits(targets[0].1) then None
    else
      var host, port := targets[0].0, Value(targets[0].1);
      var prefixes := FindAll(raw, PrefixOf);
      var intervals := FindAll(raw, IntervalOf);
      var ranges := FindAll(raw, MediaOf);
      if !(1024 <= port <= 65535) then None
      else if |prefixes| != 2 || prefixes[0] != prefixes[1] then None
      else if |intervals| != 1 || !IsDigits(intervals[0]) || Value(intervals[0]) != OPTIONS_INTERVAL then None
      else if |ranges| != 1 || !IsDigits(ranges[0].0) || !IsDigits(ranges[0].1) then None
      else
        var start, end := Value(ranges[0].0), Value(ranges[0].1);
        if !(1024 <= start <= 65534) || !(1025 <= end <= 65535) then None
        else if (start, end) != (facts.mediaStart, facts.mediaEnd) then None
        else
          var route := Route(facts.token, host, port, prefixes[0], OPTIONS_INTERVAL, start, end);
          if CompilerFragment(route) == Some(raw) then Some(route) else None
  }

  // ---------------------------------------------------------------- what the renderer's lines match

  lemma DestinationLine(host: string, port: string)
    requires host != "" && '"' !in host && ';' !in host && DigitsOf(port, 1, 5)
    ensures DestinationOf(Destination(host, port)) == Some((host, port))
  {
    HostPortOf(host, port);
    UriInner(host, port);
    hide HostPort, Inner, Uri;
  }

  lemma HostPortOf(host: string, port: string)
    requires host != "" && '"' !in host && ';' !in host && DigitsOf(port, 1, 5)
    ensures HostPort(host + ":" + port) == Some((host, port))
  {
    var m := host + ":" + port;
    NoColon(port);
    LastIndexOf(host, ':', port);
    hide LastIndex;
    assert m == host + [':'] + port;
    assert m[..|host|] == host && m[|host| + 1..] == port;
  }

  lemma UriInner(host: string, port: string)
    ensures Inner(Uri(host, port), URI_START, URI_END) == Some(host + ":" + port)
  {
    var m := host + ":" + port;
    InnerOf(URI_START, m, URI_END);
    hide Inner;
    assert URI_START + m + URI_END == Uri(host, port);
  }

  lemma NoColon(s: string)
    requires IsDigits(s)
    ensures ':' !in s && '-' !in s
  {
  }

  lemma PrefixLine(digits: string)
    requires DigitsOf(digits, 1, 15)
    ensures PrefixOf(PrefixTest(digits)) == Some(digits)
  {
    InnerOf(PREFIX_START, digits, PREFIX_END);
  }

  lemma SignedLinesFound(r: Route)
    requires r.interval == OPTIONS_INTERVAL && 1024 <= r.mediaStart <= 65534 && 1025 <= r.mediaEnd <= 65535
    ensures FindAll(SignedLines(r), IntervalOf) == [Decimal(r.interval)]
    ensures FindAll(SignedLines(r), MediaOf) == [(Decimal(r.mediaStart), Decimal(r.mediaEnd))]
  {
    var a, b := Decimal(r.mediaStart), Decimal(r.mediaEnd);
    DecimalWidth(60);
    DecimalWidth(r.mediaStart);
    DecimalWidth(r.mediaEnd);
    hide Decimal;
    NoColon(b);
    LastIndexOf(a, '-', b);
    var w := a + "-" + b;
    assert w[..|a|] == a && w[|a| + 1..] == b;
    hide LastIndex;
    var lines := SignedLines(r);
    assert lines[0].words[..5] == ["####", "Signed", "OPTIONS", "interval", "seconds:"];
    assert lines[1].words[..7] == ["####", "Signed", "PBX", "media", "destination", "UDP", "ports:"];
    assert lines[1].words[7] == w;
    FindTwoLines(lines[0], lines[1], IntervalOf);
    FindTwoLines(lines[0], lines[1], MediaOf);
    assert lines == [lines[0], lines[1]];
  }

  lemma {:induction false} FindTwoLines<T>(a: Line, b: Line, f: Line -> Option<T>)
    ensures FindAll([a, b], f) ==
      (match f(a) case Some(v) => [v] case None => []) + (match f(b) case Some(v) => [v] case None => [])
  {
    FindOneLine(b, f);
    assert [a, b][1..] == [b];
  }

  lemma {:induction false} FindOneLine<T>(a: Line, f: Line -> Option<T>)
    ensures FindAll([a], f) == match f(a) case Some(v) => [v] case None => []
  {
    assert [a][1..] == [];
  }

  /** Lines of other kinds are not matched. */
  lemma {:induction false} KindSilences(s: Program, kinds: set<Kind>)
    requires Only(s, kinds)
    ensures Target !in kinds ==> FindAll(s, DestinationOf) == []
    ensures Test !in kinds ==> FindAll(s, PrefixOf) == []
    ensures Header !in kinds ==> FindAll(s, IntervalOf) == [] && FindAll(s, MediaOf) == []
  {
    forall i | 0 <= i < |s| && Target !in kinds ensures DestinationOf(s[i]) == None { }
    forall i | 0 <= i < |s| && Test !in kinds ensures PrefixOf(s[i]) == None {
      OtherThanTest(s[i]);
    }
    forall i | 0 <= i < |s| && Header !in kinds ensures IntervalOf(s[i]) == None && MediaOf(s[i]) == None {
      OtherThanHeader(s[i]);
    }
    if Target !in kinds { FindAllSilent(s, DestinationOf); }
    if Test !in kinds { FindAllSilent(s, PrefixOf); }
    if Header !in kinds { FindAllSilent(s, IntervalOf); FindAllSilent(s, MediaOf); }
  }

  lemma OtherThanTest(l: Line)
    requires KindOf(l) != Test
    ensures PrefixOf(l) == None
  {
  }

  lemma OtherThanHeader(l: Line)
    requires KindOf(l) != Header
    ensures IntervalOf(l) == None && MediaOf(l) == None
  {
    assert |l.words| >= 5 ==> l.words[..5][0] == l.words[0];
    assert |l.words| >= 7 ==> l.words[..7][0] == l.words[0];
  }

  // ---------------------------------------------------------------- the parser inverts the renderer

  /** What the compiler's own checks allow into a route. */
  predicate Authorized(r: Route) {
    && Renderable(r) && StrictHost(r.host) && 1024 <= r.port <= 65535 && DigitsOf(r.prefix, 1, 15)
    && 1024 <= r.mediaStart <= 65534 && 1025 <= r.mediaEnd <= 65535
  }

  function FactsOf(r: Route): Expected {
    Expected(r.token, r.mediaStart, r.mediaEnd)
  }

  lemma HubLine()
    ensures DestinationOf(Destination(TEAMS_HUBS[0], "5061")) == Some((TEAMS_HUBS[0], "5061"))
  {
    var hub := "sip.pstnhub.microsoft.com";
    assert forall k | 0 <= k < |hub| :: hub[k] != '"' && hub[k] != ';';
    hide DestinationOf, Destination;
    DestinationLine(hub, "5061");
  }

  lemma FindTargets(parts: seq<Program>, a: Line, b: Line)
    requires HasKinds(parts) && parts[8] == [a] && parts[20] == [b]
    requires DestinationOf(a).Some? && DestinationOf(b).Some?
    ensures FindAll(Flatten(parts), DestinationOf) == [DestinationOf(a).value, DestinationOf(b).value]
  {
    hide DestinationOf, FindAll, Flatten, Only;
    forall k | 0 <= k < 30 && k != 8 && k != 20 ensures FindAll(parts[k], DestinationOf) == [] {
      KindSilences(parts[k], PartKinds(k));
    }
    FindInTwo(parts, 8, 20, DestinationOf);
    FindOneLine(a, DestinationOf);
    FindOneLine(b, DestinationOf);
  }

  lemma FindTests(parts: seq<Program>, a: Line)
    requires HasKinds(parts) && parts[5] == [a] && parts[17] == [a] && PrefixOf(a).Some?
    ensures FindAll(Flatten(parts), PrefixOf) == [PrefixOf(a).value, PrefixOf(a).value]
  {
    hide PrefixOf, FindAll, Flatten, Only;
    forall k | 0 <= k < 30 && k != 5 && k != 17 ensures FindAll(parts[k], PrefixOf) == [] {
      KindSilences(parts[k], PartKinds(k));
    }
    FindInTwo(parts, 5, 17, PrefixOf);
    FindOneLine(a, PrefixOf);
  }

  lemma FindSigned(parts: seq<Program>)
    requires HasKinds(parts) && parts[0] == Title()
    ensures FindAll(Flatten(parts), IntervalOf) == FindAll(parts[1], IntervalOf)
    ensures FindAll(Flatten(parts), MediaOf) == FindAll(parts[1], MediaOf)
  {
    TitleIsSilent();
    hide IntervalOf, MediaOf, Title, FindAll, Flatten, Only;
    forall k | 2 <= k < 30 ensures FindAll(parts[k], IntervalOf) == [] && FindAll(parts[k], MediaOf) == [] {
      KindSilences(parts[k], PartKinds(k));
    }
    FindInTwo(parts, 0, 1, IntervalOf);
    FindInTwo(parts, 0, 1, MediaOf);
  }

  lemma RenderedDestinations(r: Route)
    requires Authorized(r)
    ensures FindAll(Flatten(GenericParts(r, SPELLED, TEAMS_HUBS[0])), DestinationOf) == [(r.host, Decimal(r.port)), (TEAMS_HUBS[0], "5061")]
  {
    var port := Decimal(r.port);
    StrictHostChars(r.host);
    DecimalWidth(r.port);
    DestinationLine(r.host, port);
    HubLine();
    PartsAt(r, SPELLED, TEAMS_HUBS[0]);
    GenericHasKinds(r, SPELLED, TEAMS_HUBS[0]);
    hide *;
    FindTargets(GenericParts(r, SPELLED, TEAMS_HUBS[0]), Destination(r.host, port), Destination(TEAMS_HUBS[0], SPELLED.teamsPort));
  }

  lemma RenderedPrefixes(r: Route)
    requires Authorized(r)
    ensures FindAll(Flatten(GenericParts(r, SPELLED, TEAMS_HUBS[0])), PrefixOf) == [r.prefix, r.prefix]
  {
    PrefixLine(r.prefix);
    PartsAt(r, SPELLED, TEAMS_HUBS[0]);
    GenericHasKinds(r, SPELLED, TEAMS_HUBS[0]);
    hide *;
    FindTests(GenericParts(r, SPELLED, TEAMS_HUBS[0]), PrefixTest(r.prefix));
  }

  lemma RenderedSignedValues(r: Route)
    requires Authorized(r)
    ensures FindAll(Flatten(GenericParts(r, SPELLED, TEAMS_HUBS[0])), IntervalOf) == [Decimal(r.interval)]
    ensures FindAll(Flatten(GenericParts(r, SPELLED, TEAMS_HUBS[0])), MediaOf) == [(Decimal(r.mediaStart), Decimal(r.mediaEnd))]
  {
    SignedLinesFound(r);
    PartsAt(r, SPELLED, TEAMS_HUBS[0]);
    GenericHasKinds(r, SPELLED, TEAMS_HUBS[0]);
    hide *;
    FindSigned(GenericParts(r, SPELLED, TEAMS_HUBS[0]));
  }

  lemma TitleIsSilent()
    ensures FindAll(Title(), IntervalOf) == [] && FindAll(Title(), MediaOf) == []
  {
    forall i | 0 <= i < |Title()| ensures IntervalOf(Title()[i]) == None && MediaOf(Title()[i]) == None {
      assert |Title()[i].words| >= 6 && Title()[i].words[1] !in ["Signed"];
      assert Title()[i].words[..5][1] == Title()[i].words[1];
    }
    FindAllSilent(Title(), IntervalOf);
    FindAllSilent(Title(), MediaOf);
  }

  lemma PartsAt(r: Route, c: Constants, hub: string)
    ensures var parts := GenericParts(r, c, hub);
      && |parts| == 30 && parts[0] == Title() && parts[1] == SignedLines(r)
      && parts[5] == [PrefixTest(r.prefix)] && parts[17] == [PrefixTest(r.prefix)]
      && parts[8] == [Destination(r.host, Decimal(r.port))] && parts[20] == [Destination(hub, c.teamsPort)]
  {
    hide Title, SignedLines, Socket, Ingress, MethodTest, PrefixTest, NoRoute, SyntheticStart, BeforeMedia, AfterMedia, Relay,
      ReplyRoute, FailureRoute, Decimal, Destination, Offer, ReplyHook, FailureHook;
  }

  lemma HubsFiltered(host: string, port: string)
    ensures WithoutHubs([(host, port), (TEAMS_HUBS[0], "5061")]) == if host in TEAMS_HUBS then [] else [(host, port)]
  {
    var hub: (string, string) := (TEAMS_HUBS[0], "5061");
    var none: seq<(string, string)> := [];
    assert TEAMS_HUBS[0] in TEAMS_HUBS;
    assert [(host, port), hub][1..] == [hub] && [hub][1..] == none;
    assert WithoutHubs([hub]) == none;
  }

  /** The parser returns exactly the rendered route, unless its host is a Teams hub, when it refuses. */
  lemma ParseInvertsRender(r: Route)
    requires Authorized(r)
    ensures Parse(CompilerRenderer.RenderOpensips(r), FactsOf(r)) == if r.host in TEAMS_HUBS then None else Some(r)
  {
    CompilerRenderer.RenderersAgree(r);
    RenderedDestinations(r);
    RenderedPrefixes(r);
    RenderedSignedValues(r);
    HubsFiltered(r.host, Decimal(r.port));
    ValueOfDecimal(r.port);
    ValueOfDecimal(r.interval);
    ValueOfDecimal(r.mediaStart);
    ValueOfDecimal(r.mediaEnd);
    hide FindAll, Flatten, GenericParts, CompilerRenderer.RenderOpensips, StrictHost, Decimal, Value, WithoutHubs, IsDigits;
  }

  lemma WithoutHubsHolds(found: seq<(string, string)>)
    ensures forall i | 0 <= i < |WithoutHubs(found)| :: WithoutHubs(found)[i].0 !in TEAMS_HUBS
  {
  }

  /** The compiler's own program of a route with a strict host that is no hub, ports and media in their ranges,
      and the node's token and media range. */
  predicate Canonical(raw: Program, facts: Expected, r: Route) {
    raw == CompilerRenderer.RenderOpensips(r) && FactsOf(r) == facts && Authorized(r) && r.host !in TEAMS_HUBS
  }

  lemma CanonicalParses(raw: Program, facts: Expected, r: Route)
    requires Canonical(raw, facts, r)
    ensures Parse(raw, facts) == Some(r)
  {
    ParseInvertsRender(r);
    hide Parse, CompilerRenderer.RenderOpensips, Authorized;
  }

  lemma {:induction false} PrefixesHold(raw: Program)
    ensures forall i | 0 <= i < |FindAll(raw, PrefixOf)| :: DigitsOf(FindAll(raw, PrefixOf)[i], 1, 15)
  {
    hide DigitsOf, Inner;
    if raw != [] {
      PrefixesHold(raw[1..]);
    }
  }

  /** Whatever is accepted is the canonical program of an authorised route with the node's own values. */
  lemma ParseAcceptsOnlyCanonical(raw: Program, facts: Expected)
    requires Parse(raw, facts).Some?
    ensures Canonical(raw, facts, Parse(raw, facts).value)
  {
    var r := Parse(raw, facts).value;
    PrefixesHold(raw);
    WithoutHubsHolds(FindAll(raw, DestinationOf));
    hide CompilerRenderer.RenderOpensips, DigitsOf, FindAll, Flatten, GenericParts, StrictHost, Value, WithoutHubs, IsDigits;
    CompilerRenderer.RenderersAgree(r);
  }

  /** So acceptance is exactly this, for every program and every node. */
  lemma ParsedExactly(raw: Program, facts: Expected, r: Route)
    ensures Parse(raw, facts) == Some(r) <==> Canonical(raw, facts, r)
  {
    hide Parse, Canonical, CompilerRenderer.RenderOpensips;
    if Parse(raw, facts).Some? { ParseAcceptsOnlyCanonical(raw, facts); }
    if Canonical(raw, facts, r) { CanonicalParses(raw, facts, r); }
  }

  /** Parsing is injective: two accepted programs of one route are the same program. */
  lemma ParseIsInjective(a: Program, b: Program, facts: Expected)
    requires Parse(a, facts).Some? && Parse(a, facts) == Parse(b, facts)
    ensures a == b
  {
    ParseAcceptsOnlyCanonical(a, facts);
    ParseAcceptsOnlyCanonical(b, facts);
    hide Parse, CompilerRenderer.RenderOpensips, StrictHost;
  }
}
