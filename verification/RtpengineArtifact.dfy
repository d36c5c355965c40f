/**
 The media engine's configuration file: two renderers, the strict parser and the runtime's rewrite of its
 interface line (edge/compiler/core.py, `_render_rtpengine`; edge/runtime/contracts.py,
 `parse_rtpengine_artifact`, `render_rtpengine`, `render_runtime_rtpengine`).
 */
module RtpengineArtifact {
  import opened Options
  import opened TextLines
  import opened Decimals
  import opened Profiles
  import CompilerRenderer

  datatype Spec = Spec(privateIpv4: string, publicIpv4: string, portMin: nat, portMax: nat, maxSessions: nat)

  /** The node facts the artifact is bound to. */
  datatype Facts = Facts(privateIpv4: string, publicIpv4: string, mediaStart: nat, mediaEnd: nat)

  type Pair = (string, string)

  // ---------------------------------------------------------------- rendering

  const HEADER := Line(0, ["[rtpengine]"])

  function Entry(p: Pair): Line {
    Line(0, [p.0, "=", p.1])
  }

  function Entries(pairs: seq<Pair>): (lines: Program)
    ensures |lines| == |pairs|
    ensures forall i | 0 <= i < |pairs| :: lines[i] == Entry(pairs[i])
  {
    seq(|pairs|, i requires 0 <= i < |pairs| => Entry(pairs[i]))
  }

  function FixedBefore(ng: string, cli: string): seq<Pair> {
    [("listen-ng", ng), ("listen-cli", cli)]
  }

  function FixedClocks(): seq<Pair> {
    [("timeout", "60"), ("silent-timeout", "3600"), ("final-timeout", "10800"), ("tos", "184")]
  }

  function FixedThreads(): seq<Pair> {
    [("num-threads", "2"), ("media-num-threads", "2")]
  }

  function FixedLogs(): seq<Pair> {
    [("foreground", "true"), ("log-stderr", "true"), ("log-level", "5"), ("no-log-timestamps", "true")]
  }

  function FixedSchedule(): seq<Pair> {
    [("scheduling", "default"), ("priority", "0"), ("idle-scheduling", "default"), ("idle-priority", "0"), ("io-uring", "false")]
  }

  function Pairs(s: Spec, interface: string, ng: string, cli: string): seq<Pair> {
    [("table", "-1"), ("interface", interface)] + FixedBefore(ng, cli)
    + [("port-min", Decimal(s.portMin)), ("port-max", Decimal(s.portMax))] + (FixedClocks() + FixedThreads())
    + [("max-sessions", Decimal(s.maxSessions))] + (FixedLogs() + FixedSchedule())
  }

  const NG := "127.0.0.1:2223"
  const CLI := "127.0.0.1:2224"

  function Interface(a: string, b: string): string {
    a + "!" + b
  }

  function Render(s: Spec): (lines: Program)
    ensures lines != []
  {
    [HEADER] + Entries(Pairs(s, Interface(s.privateIpv4, s.publicIpv4), NG, CLI))
  }

  /** The compiler's own template, line for line, over the node facts and its named constants. */
  function CompilerRender(f: Facts, maxSessions: nat): Program {
    [Line(0, ["[rtpengine]"]),
     Line(0, ["table", "=", "-1"]),
     Line(0, ["interface", "=", f.privateIpv4 + "!" + f.publicIpv4]),
     Line(0, ["listen-ng", "=", CompilerRenderer.RTPENGINE_NG_HOST + ":" + Decimal(CompilerRenderer.RTPENGINE_NG_PORT)]),
     Line(0, ["listen-cli", "=", CompilerRenderer.RTPENGINE_NG_HOST + ":" + Decimal(CompilerRenderer.RTPENGINE_CLI_PORT)]),
     Line(0, ["port-min", "=", Decimal(f.mediaStart)]),
     Line(0, ["port-max", "=", Decimal(f.mediaEnd)])]
    + CompilerFixed()
    + [Line(0, ["max-sessions", "=", Decimal(maxSessions)])]
    + CompilerLogs()
  }

  function CompilerFixed(): Program {
    [Line(0, ["timeout", "=", "60"]),
     Line(0, ["silent-timeout", "=", "3600"]),
     Line(0, ["final-timeout", "=", "10800"]),
     Line(0, ["tos", "=", "184"]),
     Line(0, ["num-threads", "=", "2"]),
     Line(0, ["media-num-threads", "=", "2"])]
  }

  function CompilerLogs(): Program {
    [Line(0, ["foreground", "=", "true"]),
     Line(0, ["log-stderr", "=", "true"]),
     Line(0, ["log-level", "=", "5"]),
     Line(0, ["no-log-timestamps", "=", "true"]),
     Line(0, ["scheduling", "=", "default"]),
     Line(0, ["priority", "=", "0"]),
     Line(0, ["idle-scheduling", "=", "default"]),
     Line(0, ["idle-priority", "=", "0"]),
     Line(0, ["io-uring", "=", "false"])]
  }

  function SpecOf(f: Facts, maxSessions: nat): Spec {
    Spec(f.privateIpv4, f.publicIpv4, f.mediaStart, f.mediaEnd, maxSessions)
  }

  lemma Decimal2224()
    ensures Decimal(2224) == "2224"
  {
    OneDigit(2);
    NextDigit(2, 2);
    NextDigit(22, 2);
    NextDigit(222, 4);
    hide Decimal;
  }

  lemma FixedAgree()
    ensures CompilerFixed() == Entries(FixedClocks() + FixedThreads()) && CompilerLogs() == Entries(FixedLogs() + FixedSchedule())
  {
  }

  lemma EntriesConcat(a: seq<Pair>, b: seq<Pair>)
    ensures Entries(a + b) == Entries(a) + Entries(b)
  {
  }

  /** The two renderers write the same lines. */
  lemma RenderersAgree(f: Facts, maxSessions: nat)
    ensures CompilerRender(f, maxSessions) == Render(SpecOf(f, maxSessions))
  {
    Decimal2223();
    Decimal2224();
    assert "127.0.0.1" + ":" + "2223" == NG && "127.0.0.1" + ":" + "2224" == CLI;
    FixedAgree();
    var a, b := [("table", "-1"), ("interface", Interface(f.privateIpv4, f.publicIpv4))], FixedBefore(NG, CLI);
    var c, d := [("port-min", Decimal(f.mediaStart)), ("port-max", Decimal(f.mediaEnd))], FixedClocks() + FixedThreads();
    var e, g := [("max-sessions", Decimal(maxSessions))], FixedLogs() + FixedSchedule();
    EntriesConcat(a + b + c + d + e, g);
    EntriesConcat(a + b + c + d, e);
    EntriesConcat(a + b + c, d);
    hide FixedClocks, FixedThreads, FixedLogs, FixedSchedule, CompilerFixed, CompilerLogs, Decimal;
  }

  // ---------------------------------------------------------------- reading the file

  predicate KeyChar(c: char) {
    'a' <= c <= 'z' || Digit(c) || c == '-'
  }

  predicate KeyText(s: string) {
    s != "" && 'a' <= s[0] <= 'z' && forall i | 0 <= i < |s| :: KeyChar(s[i])
  }

  predicate ValueChar(c: char) {
    'a' <= c <= 'z' || 'A' <= c <= 'Z' || Digit(c) || c in {'.', '!', ':', '~', '-'}
  }

  predicate ValueText(s: string) {
    s != "" && forall i | 0 <= i < |s| :: ValueChar(s[i])
  }

  function EntryOf(l: Line): Option<Pair> {
    if l.indent == 0 && |l.words| == 3 && l.words[1] == "=" && KeyText(l.words[0]) && ValueText(l.words[2])
    then Some((l.words[0], l.words[2])) else None
  }

  /** The dictionary of the lines after those already in `values`; repeated or raw lines are refused. */
  function Collected(lines: Program, values: map<string, string>): Option<map<string, string>> {
    if lines == [] then Some(values)
    else if lines[0] == BLANK then Collected(lines[1..], values)
    else
      match EntryOf(lines[0])
      case None => None
      case Some(p) => if p.0 in values then None else Collected(lines[1..], values[p.0 := p.1])
  }

  method Collect(lines: Program) returns (r: Option<map<string, string>>)
    ensures r == Collected(lines, map[])
  {
    var values: map<string, string> := map[];
    var i := 0;
    while i < |lines|
      invariant 0 <= i <= |lines|
      invariant Collected(lines, map[]) == Collected(lines[i..], values)
    {
      var l := lines[i];
      assert lines[i..][0] == l && lines[i..][1..] == lines[i + 1..];
      if l != BLANK {
        var entry := EntryOf(l);
        if entry == None || entry.value.0 in values { return None; }
        values := values[entry.value.0 := entry.value.1];
      }
      i := i + 1;
    }
    r := Some(values);
  }

  predicate Fixed(values: map<string, string>, pairs: seq<Pair>) {
    forall p | p in pairs :: p.0 in values && values[p.0] == p.1
  }

  const VARYING := {"interface", "port-min", "port-max", "max-sessions"}

  function FixedPairs(): seq<Pair> {
    [("table", "-1")] + FixedBefore(NG, CLI) + (FixedClocks() + FixedThreads()) + (FixedLogs() + FixedSchedule())
  }

  function KeysOf(pairs: seq<Pair>): set<string> {
    set p | p in pairs :: p.0
  }

  function Number(values: map<string, string>, key: string, low: nat, high: nat): Option<nat> {
    if key in values && values[key] != "" && IsDigits(values[key]) && low <= Value(values[key]) <= high
    then Some(Value(values[key])) else None
  }

  function Parse(raw: Program, f: Facts): Option<Spec> {
    if raw == [] || raw[0] != HEADER then None
    else
      match Collected(raw[1..], map[])
      case None => None
      case Some(values) =>
        if values.Keys != KeysOf(FixedPairs()) + VARYING then None
        else if !Fixed(values, FixedPairs()) then None
        else if values["interface"] != Interface(f.privateIpv4, f.publicIpv4) then None
        else
          match (Number(values, "port-min", 1024, 65534), Number(values, "port-max", 1025, 65535))
          case (Some(low), Some(high)) =>
            if (low, high) != (f.mediaStart, f.mediaEnd) then None
            else
              (match Number(values, "max-sessions", 1, 64)
               case None => None
               case Some(sessions) =>
                 var spec := Spec(f.privateIpv4, f.publicIpv4, low, high, sessions);
                 if raw == Render(spec) then Some(spec) else None)
          case _ => None
  }

  // ---------------------------------------------------------------- what the reader makes of rendered pairs

  predicate Readable(pairs: seq<Pair>) {
    forall i | 0 <= i < |pairs| :: KeyText(pairs[i].0) && ValueText(pairs[i].1)
  }

  predicate DistinctKeys(pairs: seq<Pair>) {
    forall i, j | 0 <= i < j < |pairs| :: pairs[i].0 != pairs[j].0
  }

  lemma {:induction false} CollectedPairs(pairs: seq<Pair>, values: map<string, string>)
    requires Readable(pairs) && DistinctKeys(pairs) && forall i | 0 <= i < |pairs| :: pairs[i].0 !in values
    ensures var r := Collected(Entries(pairs), values);
      && r.Some? && r.value.Keys == values.Keys + KeysOf(pairs) && Fixed(r.value, pairs)
      && forall k | k in values :: r.value[k] == values[k]
    decreases |pairs|
  {
    if pairs == [] {
    } else {
      var p, rest := pairs[0], pairs[1..];
      assert Entries(pairs)[0] == Entry(p) && Entries(pairs)[1..] == Entries(rest);
      assert EntryOf(Entry(p)) == Some(p);
      forall i | 0 <= i < |rest| ensures rest[i] == pairs[i + 1] { }
      CollectedPairs(rest, values[p.0 := p.1]);
      forall q | q in pairs ensures q == p || q in rest {
        var i :| 0 <= i < |pairs| && pairs[i] == q;
        if i > 0 { assert rest[i - 1] == q; }
      }
      assert KeysOf(pairs) == {p.0} + KeysOf(rest);
    }
  }

  // ---------------------------------------------------------------- the keys of the file

  /** The place of a key in the file. */
  function Rank(s: string): int {
    match |s|
    case 3 => 9
    case 5 => 0
    case 7 => 6
    case 8 => if s[0] == 'i' then 21 else if s[7] == 'n' then 4 else if s[7] == 'x' then 5 else 18
    case 9 => if s[0] == 'i' then 1 else if s[1] == 'i' then 2 else 15
    case 10 => if s[0] == 'f' then 13 else if s[0] == 's' then 17 else if s[1] == 'i' then 3 else 14
    case 11 => 10
    case 12 => 12
    case 13 => if s[0] == 'f' then 8 else 20
    case 14 => 7
    case 15 => 19
    case 17 => if s[0] == 'm' then 11 else 16
    case _ => -1
  }

  predicate RankedFrom(pairs: seq<Pair>, n: nat) {
    forall i | 0 <= i < |pairs| :: Rank(pairs[i].0) == n + i
  }

  lemma RankedConcat(a: seq<Pair>, b: seq<Pair>, n: nat)
    requires RankedFrom(a, n) && RankedFrom(b, n + |a|)
    ensures RankedFrom(a + b, n)
  {
    hide Rank;
    forall i | 0 <= i < |a + b| ensures Rank((a + b)[i].0) == n + i {
      if i >= |a| { assert (a + b)[i] == b[i - |a|]; }
    }
  }

  lemma RankedDistinct(pairs: seq<Pair>, n: nat)
    requires RankedFrom(pairs, n)
    ensures DistinctKeys(pairs)
  {
    hide Rank;
    forall i, j | 0 <= i < j < |pairs| ensures pairs[i].0 != pairs[j].0 {
      assert Rank(pairs[i].0) == n + i && Rank(pairs[j].0) == n + j;
    }
  }

  lemma ReadableConcat(a: seq<Pair>, b: seq<Pair>)
    requires Readable(a) && Readable(b)
    ensures Readable(a + b)
  {
    hide KeyText, ValueText;
  }

  lemma KeysConcat(a: seq<Pair>, b: seq<Pair>)
    ensures KeysOf(a + b) == KeysOf(a) + KeysOf(b)
  {
    forall k | k in KeysOf(a) + KeysOf(b) ensures k in KeysOf(a + b) {
      if k in KeysOf(a) {
        var p :| p in a && p.0 == k;
        assert p in a + b;
      } else {
        var p :| p in b && p.0 == k;
        assert p in a + b;
      }
    }
  }

  lemma DigitsAreValues(s: string)
    requires s != "" && IsDigits(s)
    ensures ValueText(s)
  {
  }

  lemma FixedBeforeGood()
    ensures RankedFrom(FixedBefore(NG, CLI), 2) && Readable(FixedBefore(NG, CLI))
  {
  }

  lemma FixedRanked()
    ensures RankedFrom(FixedClocks(), 6) && RankedFrom(FixedThreads(), 10)
    ensures RankedFrom(FixedLogs(), 13) && RankedFrom(FixedSchedule(), 17)
  {
  }

  lemma ClockKeys()
    ensures KeyText("timeout") && KeyText("silent-timeout") && KeyText("final-timeout") && KeyText("tos")
  {
  }

  lemma ThreadKeys()
    ensures KeyText("num-threads") && KeyText("media-num-threads") && KeyText("foreground") && KeyText("log-stderr")
  {
  }

  lemma LogKeys()
    ensures KeyText("log-level") && KeyText("no-log-timestamps") && KeyText("scheduling") && KeyText("priority")
  {
  }

  lemma IdleKeys()
    ensures KeyText("idle-scheduling") && KeyText("idle-priority") && KeyText("io-uring")
  {
  }

  lemma FixedValues()
    ensures ValueText("60") && ValueText("3600") && ValueText("10800") && ValueText("184") && ValueText("2")
    ensures ValueText("true") && ValueText("5") && ValueText("default") && ValueText("0") && ValueText("false")
  {
  }

  lemma FixedReadable()
    ensures Readable(FixedClocks()) && Readable(FixedThreads()) && Readable(FixedLogs()) && Readable(FixedSchedule())
  {
    hide KeyText, ValueText;
    ClockKeys();
    ThreadKeys();
    LogKeys();
    IdleKeys();
    FixedValues();
  }

  lemma FixedGood()
    ensures var times := FixedClocks() + FixedThreads(); RankedFrom(times, 6) && Readable(times) && |times| == 6
    ensures var rest := FixedLogs() + FixedSchedule(); RankedFrom(rest, 13) && Readable(rest)
  {
    FixedRanked();
    FixedReadable();
    assert |FixedClocks()| == 4 && |FixedThreads()| == 2 && |FixedLogs()| == 4;
    hide RankedFrom, Readable, FixedClocks, FixedThreads, FixedLogs, FixedSchedule;
    RankedConcat(FixedClocks(), FixedThreads(), 6);
    RankedConcat(FixedLogs(), FixedSchedule(), 13);
    ReadableConcat(FixedClocks(), FixedThreads());
    ReadableConcat(FixedLogs(), FixedSchedule());
  }

  lemma VaryingGood(interface: string, low: nat, high: nat, sessions: nat)
    requires ValueText(interface)
    ensures var top: seq<Pair> := [("table", "-1"), ("interface", interface)]; RankedFrom(top, 0) && Readable(top)
    ensures var ports: seq<Pair> := [("port-min", Decimal(low)), ("port-max", Decimal(high))]; RankedFrom(ports, 4) && Readable(ports)
    ensures var most: seq<Pair> := [("max-sessions", Decimal(sessions))]; RankedFrom(most, 12) && Readable(most)
  {
    DigitsAreValues(Decimal(low));
    DigitsAreValues(Decimal(high));
    DigitsAreValues(Decimal(sessions));
    assert ValueText("-1");
    hide ValueText, Decimal;
  }

  lemma PairsGood(s: Spec, interface: string)
    requires ValueText(interface)
    ensures DistinctKeys(Pairs(s, interface, NG, CLI)) && Readable(Pairs(s, interface, NG, CLI))
  {
    var top: seq<Pair>, ports: seq<Pair>, most: seq<Pair> :=
      [("table", "-1"), ("interface", interface)],
      [("port-min", Decimal(s.portMin)), ("port-max", Decimal(s.portMax))], [("max-sessions", Decimal(s.maxSessions))];
    VaryingGood(interface, s.portMin, s.portMax, s.maxSessions);
    FixedBeforeGood();
    FixedGood();
    assert |FixedBefore(NG, CLI)| == 2;
    var times, rest := FixedClocks() + FixedThreads(), FixedLogs() + FixedSchedule();
    hide RankedFrom, Readable, FixedBefore, FixedClocks, FixedThreads, FixedLogs, FixedSchedule, Decimal;
    var a := top + FixedBefore(NG, CLI);
    RankedConcat(top, FixedBefore(NG, CLI), 0);
    RankedConcat(a, ports, 0);
    RankedConcat(a + ports, times, 0);
    RankedConcat(a + ports + times, most, 0);
    RankedConcat(a + ports + times + most, rest, 0);
    RankedDistinct(a + ports + times + most + rest, 0);
    ReadableConcat(top, FixedBefore(NG, CLI));
    ReadableConcat(a, ports);
    ReadableConcat(a + ports, times);
    ReadableConcat(a + ports + times, most);
    ReadableConcat(a + ports + times + most, rest);
  }

  lemma PairsKeys(s: Spec, interface: string)
    ensures KeysOf(Pairs(s, interface, NG, CLI)) == KeysOf(FixedPairs()) + VARYING
    ensures forall p | p in FixedPairs() :: p in Pairs(s, interface, NG, CLI)
  {
    var table: seq<Pair>, face: seq<Pair>, ports: seq<Pair>, most: seq<Pair> := [("table", "-1")], [("interface", interface)],
      [("port-min", Decimal(s.portMin)), ("port-max", Decimal(s.portMax))], [("max-sessions", Decimal(s.maxSessions))];
    var times, rest, fixed := FixedClocks() + FixedThreads(), FixedLogs() + FixedSchedule(), FixedBefore(NG, CLI);
    hide FixedBefore, FixedClocks, FixedThreads, FixedLogs, FixedSchedule, Decimal;
    assert KeysOf(face) == {"interface"} && KeysOf(most) == {"max-sessions"};
    assert KeysOf(ports) == {"port-min", "port-max"} by { KeysOfTwo(ports[0], ports[1]); }
    assert table + face == [("table", "-1"), ("interface", interface)];
    hide KeysOf;
    SevenKeys(table, face, fixed, ports, times, most, rest);
    FourKeys(table, fixed, times, rest);
  }

  lemma SevenKeys(a: seq<Pair>, b: seq<Pair>, c: seq<Pair>, d: seq<Pair>, e: seq<Pair>, f: seq<Pair>, g: seq<Pair>)
    ensures KeysOf(a + b + c + d + e + f + g) == KeysOf(a) + KeysOf(b) + KeysOf(c) + KeysOf(d) + KeysOf(e) + KeysOf(f) + KeysOf(g)
    ensures forall p | p in a + c + e + g :: p in a + b + c + d + e + f + g
  {
    hide KeysOf;
    KeysConcat(a, b);
    KeysConcat(a + b, c);
    KeysConcat(a + b + c, d);
    KeysConcat(a + b + c + d, e);
    KeysConcat(a + b + c + d + e, f);
    KeysConcat(a + b + c + d + e + f, g);
  }

  lemma FourKeys(a: seq<Pair>, c: seq<Pair>, e: seq<Pair>, g: seq<Pair>)
    ensures KeysOf(a + c + e + g) == KeysOf(a) + KeysOf(c) + KeysOf(e) + KeysOf(g)
  {
    hide KeysOf;
    KeysConcat(a, c);
    KeysConcat(a + c, e);
    KeysConcat(a + c + e, g);
  }

  lemma KeysOfTwo(p: Pair, q: Pair)
    ensures KeysOf([p, q]) == {p.0, q.0}
  {
    assert p in [p, q] && q in [p, q];
  }

  // ---------------------------------------------------------------- the parser inverts both renderers

  predicate Authorized(s: Spec) {
    && ValueText(s.privateIpv4) && ValueText(s.publicIpv4)
    && 1024 <= s.portMin <= 65534 && 1025 <= s.portMax <= 65535 && 1 <= s.maxSessions <= 64
  }

  function FactsOf(s: Spec): Facts {
    Facts(s.privateIpv4, s.publicIpv4, s.portMin, s.portMax)
  }

  lemma NumberRead(values: map<string, string>, key: string, n: nat, low: nat, high: nat)
    requires key in values && values[key] == Decimal(n) && low <= n <= high
    ensures Number(values, key, low, high) == Some(n)
  {
    ValueOfDecimal(n);
  }

  lemma VaryingIn(s: Spec, interface: string)
    ensures var pairs := Pairs(s, interface, NG, CLI);
      && ("interface", interface) in pairs && ("port-min", Decimal(s.portMin)) in pairs
      && ("port-max", Decimal(s.portMax)) in pairs && ("max-sessions", Decimal(s.maxSessions)) in pairs
  {
    var top: seq<Pair>, ports: seq<Pair>, most: seq<Pair> :=
      [("table", "-1"), ("interface", interface)],
      [("port-min", Decimal(s.portMin)), ("port-max", Decimal(s.portMax))], [("max-sessions", Decimal(s.maxSessions))];
    assert top[1] in top && ports[0] in ports && ports[1] in ports && most[0] in most;
    hide FixedBefore, FixedClocks, FixedThreads, FixedLogs, FixedSchedule, Decimal;
  }

  lemma InterfaceText(a: string, b: string)
    requires ValueText(a) && ValueText(b)
    ensures ValueText(Interface(a, b))
  {
  }

  lemma CollectedRender(s: Spec, pairs: seq<Pair>)
    requires Authorized(s) && pairs == Pairs(s, Interface(s.privateIpv4, s.publicIpv4), NG, CLI)
    ensures var r := Collected(Render(s)[1..], map[]);
      r.Some? && r.value.Keys == KeysOf(pairs) && Fixed(r.value, pairs)
  {
    var interface := Interface(s.privateIpv4, s.publicIpv4);
    assert Render(s)[1..] == Entries(pairs);
    InterfaceText(s.privateIpv4, s.publicIpv4);
    hide ValueText, Interface, Entries;
    PairsGood(s, interface);
    hide Pairs;
    CollectedPairs(pairs, map[]);
    hide Collected;
  }

  lemma FixedMember(values: map<string, string>, pairs: seq<Pair>, p: Pair)
    requires Fixed(values, pairs) && p in pairs
    ensures p.0 in values && values[p.0] == p.1
  {
  }

  lemma RenderedValues(s: Spec)
    requires Authorized(s)
    ensures var r := Collected(Render(s)[1..], map[]);
      && r.Some? && r.value.Keys == KeysOf(FixedPairs()) + VARYING && Fixed(r.value, FixedPairs())
      && r.value["interface"] == Interface(s.privateIpv4, s.publicIpv4)
      && Number(r.value, "port-min", 1024, 65534) == Some(s.portMin)
      && Number(r.value, "port-max", 1025, 65535) == Some(s.portMax)
      && Number(r.value, "max-sessions", 1, 64) == Some(s.maxSessions)
  {
    hide ValueText, Interface, Decimal, Render, Collected, Pairs, FixedPairs, KeysOf, Number;
    var interface := Interface(s.privateIpv4, s.publicIpv4);
    var pairs := Pairs(s, interface, NG, CLI);
    CollectedRender(s, pairs);
    PairsKeys(s, interface);
    VaryingIn(s, interface);
    var values := Collected(Render(s)[1..], map[]).value;
    assert Fixed(values, FixedPairs());
    FixedMember(values, pairs, ("interface", interface));
    FixedMember(values, pairs, ("port-min", Decimal(s.portMin)));
    FixedMember(values, pairs, ("port-max", Decimal(s.portMax)));
    FixedMember(values, pairs, ("max-sessions", Decimal(s.maxSessions)));
    hide Fixed;
    NumberRead(values, "port-min", s.portMin, 1024, 65534);
    NumberRead(values, "port-max", s.portMax, 1025, 65535);
    NumberRead(values, "max-sessions", s.maxSessions, 1, 64);
  }

  /** The parser returns exactly the rendered specification, whichever renderer wrote it. */
  lemma ParseInvertsRender(s: Spec)
    requires Authorized(s)
    ensures Parse(Render(s), FactsOf(s)) == Some(s)
    ensures Parse(CompilerRender(FactsOf(s), s.maxSessions), FactsOf(s)) == Some(s)
  {
    RenderersAgree(FactsOf(s), s.maxSessions);
    RenderedValues(s);
    assert Render(s) != [] && Render(s)[0] == HEADER;
    hide Render, CompilerRender, Collected, KeysOf, FixedPairs, Fixed, Number, Interface, ValueText;
  }

  /** Only the canonical file of the node's own specification is accepted: nothing reordered, repeated,
      missing or added survives. */
  lemma ParseAcceptsOnlyCanonical(raw: Program, f: Facts)
    requires Parse(raw, f).Some?
    ensures var s := Parse(raw, f).value;
      && raw == Render(s) && FactsOf(s) == f && 1 <= s.maxSessions <= 64
      && 1024 <= s.portMin <= 65534 && 1025 <= s.portMax <= 65535
  {
    hide Collected, Render, FixedPairs, KeysOf, Fixed;
  }

  /** So acceptance is exactly this, on every node whose addresses the value pattern reads. */
  lemma ParsedExactly(raw: Program, f: Facts, s: Spec)
    requires ValueText(f.privateIpv4) && ValueText(f.publicIpv4)
    ensures Parse(raw, f) == Some(s) <==>
      && raw == Render(s) && FactsOf(s) == f
      && 1024 <= s.portMin <= 65534 && 1025 <= s.portMax <= 65535 && 1 <= s.maxSessions <= 64
  {
    if Parse(raw, f).Some? { ParseAcceptsOnlyCanonical(raw, f); }
    if raw == Render(s) && FactsOf(s) == f && Authorized(s) { ParseInvertsRender(s); }
    hide Parse, Render, CompilerRender, ValueText;
  }

  // ---------------------------------------------------------------- the runtime's interface line

  /** The interface pattern ends a line: it starts at no fixed column and runs up to the newline. */
  predicate EndsIn(l: Line, pattern: Line) {
    var n, m := |l.words|, |pattern.words|;
    && 0 < m <= n && l.words[n - m + 1..] == pattern.words[1..]
    && |pattern.words[0]| <= |l.words[n - m]|
    && l.words[n - m][|l.words[n - m]| - |pattern.words[0]|..] == pattern.words[0]
  }

  function CountEnding(s: Program, pattern: Line): nat {
    if s == [] then 0 else (if EndsIn(s[0], pattern) then 1 else 0) + CountEnding(s[1..], pattern)
  }

  /** Replaces the end of the first such line, keeping what stands before it. */
  function ReplaceEnding(s: Program, pattern: Line, replacement: Line): Program
    requires pattern.words != [] && replacement.words != []
  {
    if s == [] then []
    else if EndsIn(s[0], pattern) then
      var l := s[0];
      var k := |l.words| - |pattern.words|;
      var kept := l.words[k][..|l.words[k]| - |pattern.words[0]|];
      [Line(l.indent, l.words[..k] + [kept + replacement.words[0]] + replacement.words[1..])] + s[1..]
    else [s[0]] + ReplaceEnding(s[1..], pattern, replacement)
  }

  function InterfaceLine(value: string): Line {
    Entry(("interface", value))
  }

  function RuntimeInterface(f: Facts, profile: Profile): string {
    match profile
    case SyntheticPrivate => Interface(f.privateIpv4, f.privateIpv4)
    case DirectRouting => Interface(f.privateIpv4, f.publicIpv4)
    case DirectRoutingPrivatePbxPoc => "private/" + f.privateIpv4 + ";public/" + f.privateIpv4 + "!" + f.publicIpv4
  }

  function Advertised(f: Facts, profile: Profile): string {
    if profile == SyntheticPrivate then f.privateIpv4 else f.publicIpv4
  }

  function RenderRuntime(f: Facts, profile: Profile, s: Spec): Option<Program> {
    if FactsOf(s) != f then None
    else
      var config := Render(s);
      var compiled := InterfaceLine(Interface(f.privateIpv4, f.publicIpv4));
      if CountEnding(config, compiled) != 1 then None
      else
        var runtime := InterfaceLine(RuntimeInterface(f, profile));
        var transformed := ReplaceEnding(config, compiled, runtime);
        var runtimeSpec := s.(publicIpv4 := Advertised(f, profile));
        var expected := ReplaceEnding(Render(runtimeSpec), InterfaceLine(Interface(runtimeSpec.privateIpv4, runtimeSpec.publicIpv4)), runtime);
        if transformed != expected then None else Some(transformed)
  }

  lemma KeyEnds(p: Pair, value: string)
    requires Rank(p.0) >= 0 && Rank(p.0) != 1 && (|p.0| >= 9 ==> p.0[|p.0| - 1] != 'e')
    ensures !EndsIn(Entry(p), InterfaceLine(value))
  {
    var l := Entry(p);
    var n := |p.0|;
    assert l.words[0] == p.0;
    if n >= 9 {
      assert p.0[n - 9..][8] == p.0[n - 1];
      assert "interface"[8] == 'e';
    }
  }

  predicate OtherKeys(pairs: seq<Pair>) {
    forall i | 0 <= i < |pairs| :: Rank(pairs[i].0) >= 0 && Rank(pairs[i].0) != 1 && (|pairs[i].0| >= 9 ==> pairs[i].0[|pairs[i].0| - 1] != 'e')
  }

  lemma {:induction false} NoEnding(pairs: seq<Pair>, value: string)
    requires OtherKeys(pairs)
    ensures CountEnding(Entries(pairs), InterfaceLine(value)) == 0
    decreases |pairs|
  {
    hide Rank, EndsIn, InterfaceLine, Entry;
    if pairs != [] {
      KeyEnds(pairs[0], value);
      assert Entries(pairs)[1..] == Entries(pairs[1..]);
      NoEnding(pairs[1..], value);
    }
  }

  lemma FixedOther()
    ensures OtherKeys(FixedBefore(NG, CLI)) && OtherKeys(FixedClocks()) && OtherKeys(FixedThreads())
    ensures OtherKeys(FixedLogs()) && OtherKeys(FixedSchedule())
  {
  }

  lemma VaryingOther(low: string, high: string, sessions: string)
    ensures OtherKeys([("port-min", low), ("port-max", high)]) && OtherKeys([("max-sessions", sessions)])
  {
  }

  /** The lines after the interface line, which do not depend on it. */
  function Rest(s: Spec): seq<Pair> {
    FixedBefore(NG, CLI) + [("port-min", Decimal(s.portMin)), ("port-max", Decimal(s.portMax))] + (FixedClocks() + FixedThreads())
    + [("max-sessions", Decimal(s.maxSessions))] + (FixedLogs() + FixedSchedule())
  }

  lemma RestOther(s: Spec)
    ensures OtherKeys(Rest(s))
  {
    FixedOther();
    VaryingOther(Decimal(s.portMin), Decimal(s.portMax), Decimal(s.maxSessions));
    hide FixedBefore, FixedClocks, FixedThreads, FixedLogs, FixedSchedule, Rank, Decimal;
  }

  lemma RenderShape(s: Spec)
    ensures Render(s) == [HEADER, Entry(("table", "-1")), InterfaceLine(Interface(s.privateIpv4, s.publicIpv4))] + Entries(Rest(s))
  {
    hide FixedBefore, FixedClocks, FixedThreads, FixedLogs, FixedSchedule, Decimal, Interface, Entry;
    var interface := Interface(s.privateIpv4, s.publicIpv4);
    var top: seq<Pair> := [("table", "-1"), ("interface", interface)];
    assert Pairs(s, interface, NG, CLI) == top + Rest(s);
    assert Entries(top + Rest(s)) == Entries(top) + Entries(Rest(s));
  }

  lemma EndingLater(l: Line, rest: Program, pattern: Line, replacement: Line)
    requires !EndsIn(l, pattern) && pattern.words != [] && replacement.words != []
    ensures CountEnding([l] + rest, pattern) == CountEnding(rest, pattern)
    ensures ReplaceEnding([l] + rest, pattern, replacement) == [l] + ReplaceEnding(rest, pattern, replacement)
  {
    assert ([l] + rest)[0] == l && ([l] + rest)[1..] == rest;
  }

  lemma EndingHere(rest: Program, value: string, replacement: string)
    requires CountEnding(rest, InterfaceLine(value)) == 0
    ensures CountEnding([InterfaceLine(value)] + rest, InterfaceLine(value)) == 1
    ensures ReplaceEnding([InterfaceLine(value)] + rest, InterfaceLine(value), InterfaceLine(replacement))
      == [InterfaceLine(replacement)] + rest
  {
    var line, changed := InterfaceLine(value), InterfaceLine(replacement);
    assert EndsIn(line, line);
    assert line.words[0][..0] + "interface" == "interface";
    assert [] + ["interface"] + changed.words[1..] == changed.words;
    assert ([line] + rest)[0] == line && ([line] + rest)[1..] == rest;
  }

  lemma HeaderDoesNotEnd(value: string)
    ensures !EndsIn(HEADER, InterfaceLine(value)) && !EndsIn(Entry(("table", "-1")), InterfaceLine(value))
  {
    KeyEnds(("table", "-1"), value);
  }

  lemma {:induction false} InterfaceReplaced(rest: Program, value: string, replacement: string)
    requires CountEnding(rest, InterfaceLine(value)) == 0
    ensures var s := [HEADER, Entry(("table", "-1")), InterfaceLine(value)] + rest;
      && CountEnding(s, InterfaceLine(value)) == 1
      && ReplaceEnding(s, InterfaceLine(value), InterfaceLine(replacement))
        == [HEADER, Entry(("table", "-1")), InterfaceLine(replacement)] + rest
  {
    var table, line, changed := Entry(("table", "-1")), InterfaceLine(value), InterfaceLine(replacement);
    HeaderDoesNotEnd(value);
    hide EndsIn, CountEnding, ReplaceEnding;
    EndingHere(rest, value, replacement);
    EndingLater(table, [line] + rest, line, changed);
    EndingLater(HEADER, [table] + ([line] + rest), line, changed);
    assert [HEADER] + ([table] + ([line] + rest)) == [HEADER, table, line] + rest;
    assert [HEADER] + ([table] + ([changed] + rest)) == [HEADER, table, changed] + rest;
  }

  lemma RuntimeConfig(s: Spec, advertised: string, value: string)
    ensures var runtimeSpec := s.(publicIpv4 := advertised);
      var pattern := InterfaceLine(Interface(s.privateIpv4, advertised));
      && |Render(s)| > 2
      && CountEnding(Render(runtimeSpec), pattern) == 1
      && ReplaceEnding(Render(runtimeSpec), pattern, InterfaceLine(value)) == Render(s)[2 := InterfaceLine(value)]
  {
    var runtimeSpec := s.(publicIpv4 := advertised);
    RenderShape(s);
    RenderShape(runtimeSpec);
    assert Rest(s) == Rest(runtimeSpec);
    RestOther(s);
    NoEnding(Rest(s), Interface(s.privateIpv4, advertised));
    var rest := Entries(Rest(s));
    hide Render, Rest, Entries, Interface, CountEnding, ReplaceEnding, InterfaceLine, Entry;
    InterfaceReplaced(rest, Interface(s.privateIpv4, advertised), value);
    var line, table := InterfaceLine(value), Entry(("table", "-1"));
    assert ([HEADER, table, InterfaceLine(Interface(s.privateIpv4, s.publicIpv4))] + rest)[2 := line] == [HEADER, table, line] + rest;
  }

  lemma InterfaceLines(f: Facts, profile: Profile)
    ensures InterfaceLine(Interface(f.privateIpv4, f.publicIpv4)) == Line(0, ["interface", "=", f.privateIpv4 + "!" + f.publicIpv4])
    ensures InterfaceLine(RuntimeInterface(f, profile)) == Line(0, ["interface", "=",
      match profile {
        case SyntheticPrivate => f.privateIpv4 + "!" + f.privateIpv4
        case DirectRouting => f.privateIpv4 + "!" + f.publicIpv4
        case DirectRoutingPrivatePbxPoc => "private/" + f.privateIpv4 + ";public/" + f.privateIpv4 + "!" + f.publicIpv4
      }])
  {
  }

  /** The rewrite succeeds exactly for the node's own specifications, which are all that the parser returns, and
      changes the interface line alone. */
  lemma RuntimeChangesOneLine(f: Facts, profile: Profile, s: Spec)
    ensures |Render(s)| > 2
    ensures RenderRuntime(f, profile, s) == if FactsOf(s) != f then None else Some(Render(s)[2 := Line(0, ["interface", "=",
      match profile {
        case SyntheticPrivate => f.privateIpv4 + "!" + f.privateIpv4
        case DirectRouting => f.privateIpv4 + "!" + f.publicIpv4
        case DirectRoutingPrivatePbxPoc => "private/" + f.privateIpv4 + ";public/" + f.privateIpv4 + "!" + f.publicIpv4
      }])])
    ensures FactsOf(s) == f ==> Render(s)[2] == Line(0, ["interface", "=", f.privateIpv4 + "!" + f.publicIpv4])
  {
    RuntimeConfig(s, s.publicIpv4, RuntimeInterface(f, profile));
    RuntimeConfig(s, Advertised(f, profile), RuntimeInterface(f, profile));
    hide Render, Interface, RuntimeInterface, CountEnding, ReplaceEnding, InterfaceLine;
    assert s.(publicIpv4 := s.publicIpv4) == s;
    InterfaceLines(f, profile);
    RenderShape(s);
  }
}
