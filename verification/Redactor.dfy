/**
 Redaction of secret values from everything the installer writes (installer/vivo_cp_installer.py,
 `Redactor`, `validate_secrets`).
 */
module Redaction {

  const MARKER := "[REDACTED]"
  const INSIDE := "REDACTED"

  predicate OccursAt(p: string, s: string, k: nat) {
    k + |p| <= |s| && s[k..k + |p|] == p
  }

  ghost predicate Occurs(p: string, s: string) {
    exists k: nat :: OccursAt(p, s, k)
  }

  /** `s.replace(p, "[REDACTED]")`: from the left, not overlapping. */
  function Replace(s: string, p: string): string
    requires p != ""
    decreases |s|
  {
    if s == "" then ""
    else if p <= s then MARKER + Replace(s[|p|..], p)
    else [s[0]] + Replace(s[1..], p)
  }

  function Redact(s: string, order: seq<string>): string
    requires "" !in order
    decreases |order|
  {
    if order == [] then s else Redact(Replace(s, order[0]), order[1..])
  }

  /** Line ends are made visible before anything is looked for. */
  function Escape(s: string): string {
    if s == "" then ""
    else (if s[0] == '\r' then "\\r" else if s[0] == '\n' then "\\n" else [s[0]]) + Escape(s[1..])
  }

  // ---------------------------------------------------------------- what secrets look like

  predicate SecretChar(c: char) {
    'A' <= c <= 'Z' || 'a' <= c <= 'z' || '0' <= c <= '9' || c == '_' || c == '-'
  }

  /** The checks on every generated or stored secret. */
  predicate ValidSecret(v: string) {
    32 <= |v| <= 128 && forall i | 0 <= i < |v| :: SecretChar(v[i])
  }

  predicate Unbracketed(v: string) {
    v != "" && forall i | 0 <= i < |v| :: v[i] != '[' && v[i] != ']'
  }

  /** A secret the marker can neither contain nor complete. */
  ghost predicate Safe(v: string) {
    Unbracketed(v) && !Occurs(v, INSIDE)
  }

  lemma ValidSecretIsSafe(v: string)
    requires ValidSecret(v)
    ensures Safe(v)
  {
    forall i | 0 <= i < |v| ensures v[i] != '[' && v[i] != ']' {
      assert SecretChar(v[i]);
    }
  }

  // ---------------------------------------------------------------- occurrences

  lemma OccursInTail(p: string, a: string, b: string, k: nat)
    requires OccursAt(p, a + b, k) && k >= |a|
    ensures OccursAt(p, b, k - |a|)
  {
    assert (a + b)[k..k + |p|] == b[k - |a|..k - |a| + |p|];
  }

  lemma OccursExtended(p: string, a: string, b: string, k: nat)
    requires OccursAt(p, b, k)
    ensures OccursAt(p, a + b, |a| + k)
  {
    assert (a + b)[|a| + k..|a| + k + |p|] == b[k..k + |p|];
  }

  lemma OccursCharwise(p: string, s: string, k: nat)
    ensures OccursAt(p, s, k) <==> k + |p| <= |s| && forall i | 0 <= i < |p| :: p[i] == s[k + i]
  {
    if k + |p| <= |s| && forall i | 0 <= i < |p| :: p[i] == s[k + i] {
      assert forall i | 0 <= i < |p| :: s[k..k + |p|][i] == p[i];
    }
    if OccursAt(p, s, k) {
      assert forall i | 0 <= i < |p| :: s[k..k + |p|][i] == p[i];
    }
  }

  lemma MarkerBrackets(rest: string)
    ensures var s := MARKER + rest; |MARKER| == 10 && |INSIDE| == 8 && s[0] == '[' && s[9] == ']'
    ensures forall i | 0 <= i < 8 :: (MARKER + rest)[i + 1] == INSIDE[i]
  {
    assert MARKER == "[" + INSIDE + "]";
  }

  /** An occurrence of an unbracketed word that starts in a marker lies between its brackets. */
  lemma OccurrenceInMarker(q: string, rest: string, k: nat)
    requires Unbracketed(q) && OccursAt(q, MARKER + rest, k) && k < |MARKER|
    ensures Occurs(q, INSIDE)
  {
    var s := MARKER + rest;
    MarkerBrackets(rest);
    OccursCharwise(q, s, k);
    BetweenBrackets(q, s, k);
    OccursCharwise(q, INSIDE, k - 1);
    forall i | 0 <= i < |q| ensures q[i] == INSIDE[k - 1 + i] {
      assert INSIDE[k - 1 + i] == s[k - 1 + i + 1];
    }
    assert OccursAt(q, INSIDE, k - 1);
  }

  lemma BetweenBrackets(q: string, s: string, k: nat)
    requires Unbracketed(q) && k < 10 && |s| >= 10 && s[0] == '[' && s[9] == ']'
    requires k + |q| <= |s| && forall i | 0 <= i < |q| :: q[i] == s[k + i]
    ensures 1 <= k && k + |q| <= 9
  {
    assert q[0] == s[k + 0];
    assert forall j | k <= j < k + |q| :: s[j] == q[j - k];
  }

  /** Output free of opening brackets was copied, not inserted. */
  lemma {:induction false} VerbatimPrefix(s: string, p: string, n: nat)
    requires p != "" && n <= |Replace(s, p)| && forall i | 0 <= i < n :: Replace(s, p)[i] != '['
    ensures n <= |s| && s[..n] == Replace(s, p)[..n]
    decreases |s|
  {
    if n > 0 && s != "" {
      assert Replace(s, p)[0] != '[';
      if !(p <= s) {
        var rest := Replace(s[1..], p);
        assert Replace(s, p) == [s[0]] + rest;
        forall i | 0 <= i < n - 1 ensures rest[i] != '[' { assert rest[i] == Replace(s, p)[i + 1]; }
        VerbatimPrefix(s[1..], p, n - 1);
        assert s[..n] == [s[0]] + s[1..][..n - 1];
        assert Replace(s, p)[..n] == [s[0]] + rest[..n - 1];
      }
    }
  }

  lemma OccursAtStart(s: string, p: string, q: string)
    requires p != "" && Unbracketed(q) && OccursAt(q, Replace(s, p), 0)
    ensures OccursAt(q, s, 0)
  {
    var r := Replace(s, p);
    forall i | 0 <= i < |q| ensures r[i] != '[' { assert r[i] == q[i]; }
    VerbatimPrefix(s, p, |q|);
  }

  /** Replacing one word removes it, and brings back no word that was absent. */
  lemma {:induction false} ReplaceLeavesOut(s: string, p: string, q: string)
    requires p != "" && Safe(q) && (q == p || !Occurs(q, s))
    ensures !Occurs(q, Replace(s, p))
    decreases |s|
  {
    var r := Replace(s, p);
    if s != "" {
      if p <= s {
        var rest := s[|p|..];
        if q != p { NotInSuffix(q, s, |p|); }
        ReplaceLeavesOut(rest, p, q);
        forall k: nat ensures !OccursAt(q, r, k) {
          if OccursAt(q, r, k) {
            if k < |MARKER| { OccurrenceInMarker(q, Replace(rest, p), k); } else { OccursInTail(q, MARKER, Replace(rest, p), k); }
          }
        }
      } else {
        if q != p { NotInSuffix(q, s, 1); }
        ReplaceLeavesOut(s[1..], p, q);
        forall k: nat ensures !OccursAt(q, r, k) {
          if OccursAt(q, r, k) {
            if k > 0 { OccursInTail(q, [s[0]], Replace(s[1..], p), k); } else { OccursAtStart(s, p, q); }
          }
        }
      }
    }
  }

  lemma NotInSuffix(q: string, s: string, n: nat)
    requires !Occurs(q, s) && n <= |s|
    ensures !Occurs(q, s[n..])
  {
    assert s[..n] + s[n..] == s;
    forall k: nat ensures !OccursAt(q, s[n..], k) {
      if OccursAt(q, s[n..], k) {
        OccursExtended(q, s[..n], s[n..], k);
      }
    }
  }

  lemma {:induction false} ReplaceAbsent(s: string, p: string)
    requires p != "" && !Occurs(p, s)
    ensures Replace(s, p) == s
    decreases |s|
  {
    if s != "" {
      assert p <= s ==> OccursAt(p, s, 0);
      NotInSuffix(p, s, 1);
      ReplaceAbsent(s[1..], p);
    }
  }

  // ---------------------------------------------------------------- whole passes

  ghost predicate Clean(s: string, values: set<string>) {
    forall v | v in values :: !Occurs(v, s)
  }

  ghost predicate SafeSet(values: set<string>) {
    forall v | v in values :: Safe(v)
  }

  lemma {:induction false} RedactCleans(s: string, order: seq<string>, done: set<string>)
    requires "" !in order && Clean(s, done) && SafeSet(done) && forall i | 0 <= i < |order| :: Safe(order[i])
    ensures Clean(Redact(s, order), done + set v | v in order)
    decreases |order|
  {
    var all := done + set v | v in order;
    if order == [] {
      assert all == done;
    } else {
      var p := order[0];
      forall v | v in done + {p} ensures !Occurs(v, Replace(s, p)) {
        ReplaceLeavesOut(s, p, v);
      }
      forall i | 0 <= i < |order[1..]| ensures Safe(order[1..][i]) { assert order[1..][i] == order[i + 1]; }
      RedactCleans(Replace(s, p), order[1..], done + {p});
      assert all == done + {p} + set v | v in order[1..];
    }
  }

  /** Complete in any processing order, for all safe secrets. */
  lemma RedactionIsComplete(s: string, order: seq<string>, values: set<string>)
    requires SafeSet(values) && "" !in values && (set v | v in order) == values
    ensures "" !in order && Clean(Redact(s, order), values)
  {
    forall i | 0 <= i < |order| ensures order[i] in values && Safe(order[i]) {
      assert order[i] in set v | v in order;
    }
    RedactCleans(s, order, {});
    assert {} + values == values;
  }

  lemma {:induction false} CleanIsUnchanged(s: string, order: seq<string>, values: set<string>)
    requires "" !in values && Clean(s, values) && forall v | v in order :: v in values
    ensures "" !in order && Redact(s, order) == s
    decreases |order|
  {
    if order != [] {
      assert order[0] in values;
      ReplaceAbsent(s, order[0]);
      CleanIsUnchanged(s, order[1..], values);
    }
  }

  predicate NoLineEnds(s: string) {
    forall i | 0 <= i < |s| :: s[i] != '\r' && s[i] != '\n'
  }

  lemma {:induction false} EscapeRemovesLineEnds(s: string)
    ensures NoLineEnds(Escape(s))
    decreases |s|
  {
    if s != "" { EscapeRemovesLineEnds(s[1..]); }
  }

  lemma {:induction false} EscapeUnchanged(s: string)
    requires NoLineEnds(s)
    ensures Escape(s) == s
    decreases |s|
  {
    if s != "" { EscapeUnchanged(s[1..]); }
  }

  lemma {:induction false} ReplaceKeepsLines(s: string, p: string)
    requires p != "" && NoLineEnds(s)
    ensures NoLineEnds(Replace(s, p))
    decreases |s|
  {
    assert NoLineEnds(MARKER);
    if s != "" {
      if p <= s { ReplaceKeepsLines(s[|p|..], p); } else { ReplaceKeepsLines(s[1..], p); }
    }
  }

  lemma {:induction false} RedactKeepsLines(s: string, order: seq<string>)
    requires "" !in order && NoLineEnds(s)
    ensures NoLineEnds(Redact(s, order))
    decreases |order|
  {
    if order != [] {
      ReplaceKeepsLines(s, order[0]);
      RedactKeepsLines(Replace(s, order[0]), order[1..]);
    }
  }

  /** A second pass, in whatever order, changes nothing; nor does the first on text without secrets. */
  lemma RedactionIsIdempotent(value: string, first: seq<string>, second: seq<string>, values: set<string>)
    requires SafeSet(values) && "" !in values && (set v | v in first) == values && (set v | v in second) == values
    ensures "" !in first && "" !in second
    ensures var once := Redact(Escape(value), first); Redact(Escape(once), second) == once
    ensures Clean(Escape(value), values) ==> Redact(Escape(value), first) == Escape(value)
  {
    RedactionIsComplete(Escape(value), first, values);
    var once := Redact(Escape(value), first);
    EscapeRemovesLineEnds(value);
    RedactKeepsLines(Escape(value), first);
    EscapeUnchanged(once);
    forall v | v in second ensures v in values { assert v in set w | w in second; }
    forall v | v in first ensures v in values { assert v in set w | w in first; }
    CleanIsUnchanged(once, second, values);
    if Clean(Escape(value), values) { CleanIsUnchanged(Escape(value), first, values); }
  }

  // ---------------------------------------------------------------- exactly which secrets are safe

  lemma {:induction false} ReplaceShowsMarker(s: string, p: string)
    requires p != "" && (Occurs(p, s) || Occurs(MARKER, s))
    ensures Occurs(p, s) ==> Occurs(MARKER, Replace(s, p))
    ensures !Occurs(p, s) ==> Replace(s, p) == s
    decreases |s|
  {
    if Occurs(p, s) {
      var k: nat :| OccursAt(p, s, k);
      MarkerAt(s, p, k);
    } else {
      ReplaceAbsent(s, p);
    }
  }

  lemma {:induction false} MarkerAt(s: string, p: string, k: nat)
    requires p != "" && OccursAt(p, s, k)
    ensures Occurs(MARKER, Replace(s, p))
    decreases |s|
  {
    if p <= s {
      assert OccursAt(MARKER, Replace(s, p), 0);
    } else {
      assert k > 0;
      assert s[1..][k - 1..k - 1 + |p|] == s[k..k + |p|];
      MarkerAt(s[1..], p, k - 1);
      var m: nat :| OccursAt(MARKER, Replace(s[1..], p), m);
      OccursExtended(MARKER, [s[0]], Replace(s[1..], p), m);
    }
  }

  lemma {:induction false} MarkerSurvives(s: string, order: seq<string>)
    requires "" !in order && Occurs(MARKER, s)
    ensures Occurs(MARKER, Redact(s, order))
    decreases |order|
  {
    if order != [] {
      ReplaceShowsMarker(s, order[0]);
      MarkerSurvives(Replace(s, order[0]), order[1..]);
    }
  }

  lemma OccursInMarked(q: string, s: string)
    requires Occurs(q, INSIDE) && Occurs(MARKER, s)
    ensures Occurs(q, s)
  {
    var k: nat :| OccursAt(q, INSIDE, k);
    var m: nat :| OccursAt(MARKER, s, m);
    MarkerBrackets("");
    assert MARKER + "" == MARKER;
    OccursCharwise(q, INSIDE, k);
    OccursCharwise(MARKER, s, m);
    forall i | 0 <= i < |q| ensures q[i] == s[m + 1 + k + i] {
      assert s[m + (k + i + 1)] == MARKER[k + i + 1] == INSIDE[k + i];
    }
    OccursCharwise(q, s, m + 1 + k);
  }

  /** Among secrets without brackets, redaction leaves none behind in any text exactly when none of them
      is part of the marker's own word. */
  lemma SafeSecretsExactly(order: seq<string>, values: set<string>)
    requires order != [] && (set v | v in order) == values && forall v | v in values :: Unbracketed(v)
    ensures "" !in order
    ensures (forall s :: Clean(Redact(s, order), values)) <==> SafeSet(values)
  {
    forall v | v in order ensures v in values && v != "" { assert v in set w | w in order; }
    if SafeSet(values) {
      forall s ensures Clean(Redact(s, order), values) {
        RedactionIsComplete(s, order, values);
      }
    } else {
      var q :| q in values && !Safe(q);
      var s := order[0];
      assert s in order;
      assert OccursAt(s, s, 0);
      ReplaceShowsMarker(s, order[0]);
      assert forall v | v in order[1..] :: v in order;
      MarkerSurvives(Replace(s, order[0]), order[1..]);
      OccursInMarked(q, Redact(s, order));
      assert !Clean(Redact(s, order), values);
    }
  }

  /** A one-letter value shows that the redactor alone does not promise this. */
  lemma ShortSecretLeaks()
    ensures Unbracketed("R") && Occurs("R", Redact("R", ["R"]))
  {
    assert Replace("R", "R") == MARKER + Replace("R"[1..], "R");
    assert "R"[1..] == "" && Replace("", "R") == "";
    assert ["R"][1..] == [];
    assert Redact("R", ["R"]) == Replace("R", "R") == MARKER + "";
    assert MARKER[1..2] == "R";
    assert OccursAt("R", MARKER + "", 1);
  }

  // ---------------------------------------------------------------- the object

  predicate Enumerates(order: seq<string>, values: set<string>) {
    (set v | v in order) == values && forall i, j | 0 <= i < j < |order| :: order[i] != order[j]
  }

  predicate LongestFirst(order: seq<string>) {
    forall i, j | 0 <= i < j < |order| :: |order[i]| >= |order[j]|
  }

  lemma LongestExists(values: set<string>)
    requires values != {}
    ensures exists v :: v in values && forall w | w in values :: |w| <= |v|
    decreases |values|
  {
    var x :| x in values;
    var rest := values - {x};
    if rest == {} {
      assert values == {x} + rest;
    } else {
      LongestExists(rest);
      var v :| v in rest && forall w | w in rest :: |w| <= |v|;
      assert values == {x} + rest;
      var longest := if |x| > |v| then x else v;
      assert forall w | w in values :: |w| <= |longest|;
    }
  }

  /** The order so far: the processed values, each once, none shorter than what is left. */
  ghost predicate Processed(order: seq<string>, values: set<string>, rest: set<string>) {
    && rest <= values && Enumerates(order, values - rest) && LongestFirst(order)
    && forall i, w | 0 <= i < |order| && w in rest :: |w| <= |order[i]|
  }

  lemma OrderGrows(order: seq<string>, values: set<string>, rest: set<string>, v: string)
    requires Processed(order, values, rest) && v in rest && forall w | w in rest :: |w| <= |v|
    ensures Processed(order + [v], values, rest - {v})
  {
    var longer := order + [v];
    forall i | 0 <= i < |order| ensures order[i] != v {
      assert order[i] in set w | w in order;
    }
    assert (set w | w in longer) == (set w | w in order) + {v};
    assert values - rest + {v} == values - (rest - {v});
  }

  class Redactor {
    var values: set<string>

    constructor (secrets: set<string>)
      ensures values == secrets - {""}
    {
      values := secrets - {""};
    }

    method AddValues(secrets: set<string>)
      modifies this
      ensures values == old(values) + (secrets - {""})
    {
      values := values + (secrets - {""});
    }

    /** Longest secrets first; equal lengths in any order. */
    method Text(value: string) returns (rendered: string, ghost order: seq<string>)
      requires "" !in values
      ensures "" !in order && Enumerates(order, values) && LongestFirst(order)
      ensures rendered == Redact(Escape(value), order)
      ensures NoLineEnds(rendered)
      ensures SafeSet(values) ==> Clean(rendered, values)
    {
      rendered := Escape(value);
      ghost var start := rendered;
      EscapeRemovesLineEnds(value);
      order := [];
      var rest := values;
      while rest != {}
        invariant "" !in order && Processed(order, values, rest)
        invariant rendered == Redact(start, order)
        decreases rest
      {
        LongestExists(rest);
        var v :| v in rest && forall w | w in rest :: |w| <= |v|;
        OrderGrows(order, values, rest, v);
        RedactLast(start, order, v);
        rendered := Replace(rendered, v);
        order := order + [v];
        rest := rest - {v};
      }
      assert values - {} == values;
      RedactKeepsLines(start, order);
      if SafeSet(values) { RedactionIsComplete(start, order, values); }
    }
  }

  lemma {:induction false} RedactLast(s: string, order: seq<string>, v: string)
    requires "" !in order && v != ""
    ensures "" !in order + [v] && Redact(s, order + [v]) == Replace(Redact(s, order), v)
    decreases |order|
  {
    if order == [] {
      assert order + [v] == [v];
      assert [v][1..] == [];
    } else {
      assert (order + [v])[0] == order[0] && (order + [v])[1..] == order[1..] + [v];
      RedactLast(Replace(s, order[0]), order[1..], v);
    }
  }

  /** The stored secrets: everything the installer logs through the redactor is free of them. */
  lemma ValidSecretsAreRedacted(value: string, order: seq<string>, values: set<string>)
    requires forall v | v in values ::
      32 <= |v| <= 128
      && forall c | c in v :: 'A' <= c <= 'Z' || 'a' <= c <= 'z' || '0' <= c <= '9' || c == '_' || c == '-'
    requires (set v | v in order) == values
    ensures "" !in order && Clean(Redact(Escape(value), order), values)
  {
    forall v | v in values ensures Safe(v) && v != "" {
      assert ValidSecret(v) by { assert forall i | 0 <= i < |v| :: v[i] in v; }
      ValidSecretIsSafe(v);
    }
    RedactionIsComplete(Escape(value), order, values);
  }
}
