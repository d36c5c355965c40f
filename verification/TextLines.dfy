/**
 Generated configuration text, held as lines of words, with the search and replacement that the
 runtime renderer performs on it (edge/runtime/contracts.py, `_runtime_tenant_fragment`).
 */
module TextLines {

  /** A line is its indentation and its words; a blank line has neither. */
  datatype Line = Line(indent: nat, words: seq<string>)

  type Program = seq<Line>

  const BLANK := Line(0, [])

  predicate ProperWord(w: string) {
    w != "" && ' ' !in w && '\n' !in w
  }

  predicate Proper(l: Line) {
    (l.words == [] ==> l.indent == 0) && forall i | 0 <= i < |l.words| :: ProperWord(l.words[i])
  }

  // ---------------------------------------------------------------- the characters of a line

  function Spaces(n: nat): (s: string)
    ensures |s| == n && forall i | 0 <= i < n :: s[i] == ' '
  {
    seq(n, i => ' ')
  }

  function Joined(words: seq<string>): string {
    if words == [] then ""
    else if |words| == 1 then words[0]
    else words[0] + " " + Joined(words[1..])
  }

  function Text(l: Line): string {
    Spaces(l.indent) + Joined(l.words)
  }

  predicate OccursAt(pattern: string, text: string, k: nat) {
    k + |pattern| <= |text| && text[k..k + |pattern|] == pattern
  }

  // ---------------------------------------------------------------- occurrence, word by word

  /** The pattern's words begin the line, the last of them possibly cut short. */
  predicate Begins(pattern: seq<string>, words: seq<string>) {
    && 0 < |pattern| <= |words|
    && pattern[..|pattern| - 1] == words[..|pattern| - 1]
    && pattern[|pattern| - 1] <= words[|pattern| - 1]
  }

  /** An indented pattern occurs in a line. */
  predicate Within(pattern: Line, l: Line) {
    pattern.indent <= l.indent && Begins(pattern.words, l.words)
  }

  lemma {:induction false} JoinedShape(words: seq<string>)
    requires words != [] && forall i | 0 <= i < |words| :: ProperWord(words[i])
    ensures var text := Joined(words);
      && text != "" && text[0] != ' '
      && forall i | 0 <= i < |text| - 1 :: !(text[i] == ' ' && text[i + 1] == ' ')
    decreases |words|
  {
    assert ProperWord(words[0]);
    if |words| > 1 {
      forall i | 0 <= i < |words[1..]| ensures ProperWord(words[1..][i]) {
        assert words[1..][i] == words[i + 1];
      }
      JoinedShape(words[1..]);
      var head, rest := words[0], Joined(words[1..]);
      var text := Joined(words);
      assert text == head + " " + rest;
      forall i | 0 <= i < |text| - 1 ensures !(text[i] == ' ' && text[i + 1] == ' ') {
        if i < |head| {
          assert text[i] == head[i];
        } else if i == |head| {
          assert text[i + 1] == rest[0];
        } else {
          assert text[i] == rest[i - |head| - 1] && text[i + 1] == rest[i - |head|];
        }
      }
    } else {
      var text := Joined(words);
      assert text == words[0];
      forall i | 0 <= i < |text| - 1 ensures !(text[i] == ' ' && text[i + 1] == ' ') {
        assert text[i] in text;
      }
    }
  }

  lemma {:induction false} BeginsIffPrefix(pattern: seq<string>, words: seq<string>)
    requires pattern != [] && forall i | 0 <= i < |pattern| :: ProperWord(pattern[i])
    requires forall i | 0 <= i < |words| :: ProperWord(words[i])
    ensures Begins(pattern, words) <==> Joined(pattern) <= Joined(words)
    decreases |pattern|
  {
    assert ProperWord(pattern[0]);
    if words == [] {
      JoinedShape(pattern);
    } else {
      assert ProperWord(words[0]);
      var p, w := pattern[0], words[0];
      if |pattern| == 1 {
        LastWordPrefix(p, words);
      } else if |words| == 1 {
        var text := Joined(pattern);
        assert text[|p|] == ' ' && text[|p|] in text;
        assert text <= w ==> text[|p|] in w;
      } else {
        var pattern', words' := pattern[1..], words[1..];
        forall i | 0 <= i < |pattern'| ensures ProperWord(pattern'[i]) { assert pattern'[i] == pattern[i + 1]; }
        forall i | 0 <= i < |words'| ensures ProperWord(words'[i]) { assert words'[i] == words[i + 1]; }
        BeginsIffPrefix(pattern', words');
        SameFirstWord(p, Joined(pattern'), w, Joined(words'));
        BeginsTail(pattern, words);
      }
    }
  }

  lemma BeginsTail(pattern: seq<string>, words: seq<string>)
    requires |pattern| > 1 && |words| > 1
    ensures Begins(pattern, words) <==> pattern[0] == words[0] && Begins(pattern[1..], words[1..])
  {
    if |pattern| <= |words| {
      var n := |pattern| - 1;
      assert pattern[..n] == [pattern[0]] + pattern[1..][..n - 1];
      assert words[..n] == [words[0]] + words[1..][..n - 1];
    }
  }

  lemma LastWordPrefix(p: string, words: seq<string>)
    requires ProperWord(p) && words != []
    ensures p <= words[0] <==> p <= Joined(words)
  {
    var w, text := words[0], Joined(words);
    assert w <= text;
    assert |words| > 1 ==> text[|w|] == ' ';
    assert p <= text ==> forall i | 0 <= i < |p| :: text[i] in p;
  }

  lemma SameFirstWord(p: string, p': string, w: string, w': string)
    requires ProperWord(p) && ProperWord(w)
    ensures p + " " + p' <= w + " " + w' <==> p == w && p' <= w'
  {
    var a, b := p + " " + p', w + " " + w';
    if p == w && p' <= w' {
      assert b == p + " " + p' + w'[|p'|..];
    }
    if a <= b {
      assert a[|p|] == ' ' && b[|w|] == ' ';
      assert a[|p|] == b[|p|] && a[|w|] == b[|w|];
      assert forall i | 0 <= i < |w| :: b[i] in w;
      assert forall i | 0 <= i < |p| :: a[i] in p;
      assert p == a[..|p|] && w == b[..|w|];
      assert p' == a[|p| + 1..] && w' == b[|w| + 1..];
    }
  }

  /** Substring search for an indented one-line pattern is the word-by-word test, and a line holds the
      pattern at most once, ending its indentation where the line's ends. */
  lemma OccursIffWithin(pattern: Line, l: Line)
    requires Proper(pattern) && Proper(l) && pattern.indent >= 2
    ensures forall k: nat :: OccursAt(Text(pattern), Text(l), k) ==> k + pattern.indent == l.indent
    ensures (exists k: nat :: OccursAt(Text(pattern), Text(l), k)) <==> Within(pattern, l)
  {
    JoinedShape(pattern.words);
    BeginsIffPrefix(pattern.words, l.words);
    var small, text := Text(pattern), Text(l);
    forall k: nat | OccursAt(small, text, k)
      ensures k + pattern.indent == l.indent && Joined(pattern.words) <= Joined(l.words)
    {
      OccurrencePlace(pattern, l, k);
    }
    if Within(pattern, l) {
      var k := l.indent - pattern.indent;
      assert text[k..] == Spaces(pattern.indent) + Joined(l.words);
      assert text[k..][..|small|] == text[k..k + |small|];
      assert OccursAt(small, text, k);
    }
  }

  lemma OccurrencePlace(pattern: Line, l: Line, k: nat)
    requires Proper(pattern) && Proper(l) && pattern.indent >= 2 && OccursAt(Text(pattern), Text(l), k)
    ensures k + pattern.indent == l.indent && Joined(pattern.words) <= Joined(l.words)
  {
    var small, text, j := Text(pattern), Text(l), k + pattern.indent;
    assert forall i | 0 <= i < |small| :: small[i] == text[k + i];
    assert small[pattern.indent - 2] == ' ' && small[pattern.indent - 1] == ' ';
    assert text[j - 2] == ' ' && text[j - 1] == ' ';
    JoinedShape(pattern.words);
    assert small[pattern.indent] == Joined(pattern.words)[0];
    assert text[j] != ' ';
    assert j >= l.indent;
    if l.words != [] {
      JoinedShape(l.words);
      var rest := Joined(l.words);
      assert forall i | 0 <= i < |rest| :: rest[i] == text[l.indent + i];
      assert forall i | l.indent <= i < |text| :: text[i] == rest[i - l.indent];
    }
    assert Joined(l.words) == text[j..];
    assert Joined(pattern.words) == small[pattern.indent..] == text[j..k + |small|];
  }

  /** Different proper lines have different texts, so comparing lines is comparing texts. */
  lemma TextIsInjective(a: Line, b: Line)
    requires Proper(a) && Proper(b) && Text(a) == Text(b)
    ensures a == b
  {
    if a.words == [] || b.words == [] {
      if a.words != [] { JoinedShape(a.words); }
      if b.words != [] { JoinedShape(b.words); }
    } else {
      JoinedShape(a.words);
      JoinedShape(b.words);
      assert Text(a)[a.indent] == Joined(a.words)[0];
      assert Text(b)[b.indent] == Joined(b.words)[0];
      assert forall i | 0 <= i < a.indent :: Text(a)[i] == ' ';
      assert forall i | 0 <= i < b.indent :: Text(b)[i] == ' ';
      assert a.indent == b.indent;
      assert Joined(a.words) == Text(a)[a.indent..] == Joined(b.words);
      WordsAreDetermined(a.words, b.words);
    }
  }

  lemma WordsAreDetermined(a: seq<string>, b: seq<string>)
    requires a != [] && (forall i | 0 <= i < |a| :: ProperWord(a[i]))
    requires b != [] && (forall i | 0 <= i < |b| :: ProperWord(b[i]))
    requires Joined(a) == Joined(b)
    ensures a == b
  {
    BeginsIffPrefix(a, b);
    BeginsIffPrefix(b, a);
    EachBeginsOther(a, b);
  }

  lemma EachBeginsOther(a: seq<string>, b: seq<string>)
    requires Begins(a, b) && Begins(b, a)
    ensures a == b
  {
    var n := |a| - 1;
    MutualPrefix(a[n], b[n]);
    assert a == a[..n] + [a[n]] && b == b[..n] + [b[n]];
  }

  lemma MutualPrefix(x: string, y: string)
    requires x <= y && y <= x
    ensures x == y
  {
    assert y[..|x|] == x;
  }

  // ---------------------------------------------------------------- counting and replacing a line pattern

  function Count(s: Program, pattern: Line): nat {
    if s == [] then 0 else (if Within(pattern, s[0]) then 1 else 0) + Count(s[1..], pattern)
  }

  /** The replacement put in the place of the pattern, with what the line holds around it. */
  function Splice(l: Line, pattern: Line, replacement: Program): Program
    requires Within(pattern, l) && replacement != [] && forall i | 0 <= i < |replacement| :: replacement[i].words != []
  {
    var n, m := |pattern.words|, |replacement|;
    var shifted := replacement[0 := replacement[0].(indent := replacement[0].indent + (l.indent - pattern.indent))];
    var last := shifted[m - 1];
    var end := |last.words| - 1;
    var rest := l.words[n - 1][|pattern.words[n - 1]|..];
    shifted[m - 1 := last.(words := last.words[..end] + [last.words[end] + rest] + l.words[n..])]
  }

  predicate Replacement(r: Program) {
    r != [] && forall i | 0 <= i < |r| :: r[i].words != []
  }

  function ReplaceFirst(s: Program, pattern: Line, replacement: Program): Program
    requires Replacement(replacement)
  {
    if s == [] then []
    else if Within(pattern, s[0]) then Splice(s[0], pattern, replacement) + s[1..]
    else [s[0]] + ReplaceFirst(s[1..], pattern, replacement)
  }

  /** `str.find`: the first line at or after `start` holding the pattern, or the length. */
  function Find(s: Program, pattern: Line, start: nat): (i: nat)
    requires start <= |s|
    ensures start <= i <= |s|
    ensures i < |s| ==> Within(pattern, s[i])
    ensures forall j | start <= j < i :: !Within(pattern, s[j])
    decreases |s| - start
  {
    if start == |s| || Within(pattern, s[start]) then start else Find(s, pattern, start + 1)
  }

  lemma SpliceWhole(pattern: Line, replacement: Program)
    requires Replacement(replacement) && pattern.words != []
    ensures Within(pattern, pattern) && Splice(pattern, pattern, replacement) == replacement
  {
    var n, m := |pattern.words|, |replacement|;
    var last := replacement[m - 1];
    var end := |last.words| - 1;
    assert pattern.words[n - 1][|pattern.words[n - 1]|..] == "" && pattern.words[n..] == [];
    assert last.words[end] + "" == last.words[end];
    assert last.words[..end] + [last.words[end]] + [] == last.words;
    assert pattern.words[..n - 1] == pattern.words[..n - 1];
    assert replacement[0 := replacement[0]] == replacement;
  }

  predicate Quiet(s: Program, pattern: Line) {
    forall i | 0 <= i < |s| :: !Within(pattern, s[i])
  }

  lemma {:induction false} CountQuiet(s: Program, pattern: Line)
    requires Quiet(s, pattern)
    ensures Count(s, pattern) == 0
    decreases |s|
  {
    if s != [] { CountQuiet(s[1..], pattern); }
  }

  lemma {:induction false} CountConcat(a: Program, b: Program, pattern: Line)
    ensures Count(a + b, pattern) == Count(a, pattern) + Count(b, pattern)
    decreases |a|
  {
    if a == [] {
      assert a + b == b;
    } else {
      CountConcat(a[1..], b, pattern);
      assert (a + b)[0] == a[0] && (a + b)[1..] == a[1..] + b;
    }
  }

  lemma {:induction false} ReplaceAfter(a: Program, b: Program, pattern: Line, replacement: Program)
    requires Quiet(a, pattern) && Replacement(replacement)
    ensures ReplaceFirst(a + b, pattern, replacement) == a + ReplaceFirst(b, pattern, replacement)
    decreases |a|
  {
    if a == [] {
      assert a + b == b;
    } else {
      ReplaceAfter(a[1..], b, pattern, replacement);
      assert (a + b)[0] == a[0] && (a + b)[1..] == a[1..] + b;
      assert a == [a[0]] + a[1..];
    }
  }

  // ---------------------------------------------------------------- blocks

  /** A block pattern starts at the beginning of a line and ends with one. */
  function CountBlock(s: Program, block: Program): nat {
    if s == [] then 0 else (if block <= s then 1 else 0) + CountBlock(s[1..], block)
  }

  function ReplaceBlock(s: Program, block: Program, replacement: Program): Program {
    if s == [] then []
    else if block <= s then replacement + s[|block|..]
    else [s[0]] + ReplaceBlock(s[1..], block, replacement)
  }

  predicate Absent(s: Program, head: Line) {
    forall i | 0 <= i < |s| :: s[i] != head
  }

  lemma {:induction false} BlockAbsent(s: Program, block: Program)
    requires block != [] && Absent(s, block[0])
    ensures CountBlock(s, block) == 0
    decreases |s|
  {
    if s != [] {
      assert s[1..] == [] || Absent(s[1..], block[0]);
      BlockAbsent(s[1..], block);
    }
  }

  /** A block whose first line occurs nowhere else is found once and replaced there. */
  lemma {:induction false} BlockOnce(a: Program, block: Program, z: Program, replacement: Program)
    requires block != [] && Absent(a, block[0]) && Absent(block[1..], block[0]) && Absent(z, block[0])
    ensures CountBlock(a + (block + z), block) == 1
    ensures ReplaceBlock(a + (block + z), block, replacement) == a + (replacement + z)
    decreases |a|
  {
    BlockHere(block, z, replacement);
    hide ReplaceBlock, CountBlock;
    if a == [] {
      assert a + (block + z) == block + z && a + (replacement + z) == replacement + z;
    } else {
      var rest := a[1..];
      assert a == [a[0]] + rest;
      BlockOnce(rest, block, z, replacement);
      BlockLater(a[0], rest + (block + z), block, replacement);
      assert a + (block + z) == [a[0]] + (rest + (block + z));
      assert a + (replacement + z) == [a[0]] + (rest + (replacement + z));
    }
  }

  lemma BlockHere(block: Program, z: Program, replacement: Program)
    requires block != [] && Absent(block[1..], block[0]) && Absent(z, block[0])
    ensures CountBlock(block + z, block) == 1
    ensures ReplaceBlock(block + z, block, replacement) == replacement + z
  {
    var s := block + z;
    assert s[1..] == block[1..] + z;
    BlockAbsent(s[1..], block);
    assert s[|block|..] == z;
  }

  lemma BlockLater(first: Line, rest: Program, block: Program, replacement: Program)
    requires block != [] && first != block[0]
    ensures CountBlock([first] + rest, block) == CountBlock(rest, block)
    ensures ReplaceBlock([first] + rest, block, replacement) == [first] + ReplaceBlock(rest, block, replacement)
  {
    assert ([first] + rest)[0] == first && ([first] + rest)[1..] == rest;
  }

  // ---------------------------------------------------------------- programs assembled from parts

  function Flatten(parts: seq<Program>): Program {
    if parts == [] then [] else parts[0] + Flatten(parts[1..])
  }

  lemma {:induction false} FlattenConcat(a: seq<Program>, b: seq<Program>)
    ensures Flatten(a + b) == Flatten(a) + Flatten(b)
    decreases |a|
  {
    if a == [] {
      assert a + b == b;
    } else {
      FlattenConcat(a[1..], b);
      assert (a + b)[0] == a[0] && (a + b)[1..] == a[1..] + b;
    }
  }

  lemma FlattenAround(parts: seq<Program>, i: nat)
    requires i < |parts|
    ensures Flatten(parts) == Flatten(parts[..i]) + parts[i] + Flatten(parts[i + 1..])
  {
    FlattenConcat(parts[..i], parts[i..]);
    assert parts == parts[..i] + parts[i..];
    assert parts[i..][0] == parts[i] && parts[i..][1..] == parts[i + 1..];
  }

  lemma {:induction false} FlattenHolds(parts: seq<Program>, p: Line -> bool)
    requires forall i | 0 <= i < |parts| :: forall k | 0 <= k < |parts[i]| :: p(parts[i][k])
    ensures forall k | 0 <= k < |Flatten(parts)| :: p(Flatten(parts)[k])
    decreases |parts|
  {
    if parts != [] {
      var rest := parts[1..];
      forall i | 0 <= i < |rest| ensures forall k | 0 <= k < |rest[i]| :: p(rest[i][k]) {
        assert rest[i] == parts[i + 1];
      }
      FlattenHolds(rest, p);
    }
  }

  predicate QuietParts(parts: seq<Program>, pattern: Line) {
    forall i | 0 <= i < |parts| :: Quiet(parts[i], pattern)
  }

  lemma QuietFlatten(parts: seq<Program>, pattern: Line)
    requires QuietParts(parts, pattern)
    ensures Quiet(Flatten(parts), pattern)
  {
    forall i | 0 <= i < |parts|
      ensures forall k | 0 <= k < |parts[i]| :: (l => !Within(pattern, l))(parts[i][k])
    {
      assert Quiet(parts[i], pattern);
    }
    FlattenHolds(parts, l => !Within(pattern, l));
  }

  /** The pattern is a whole part, and the parts before it are quiet: it is what gets replaced. */
  lemma ReplacePart(parts: seq<Program>, i: nat, pattern: Line, replacement: Program)
    requires i < |parts| && parts[i] == [pattern] && pattern.words != [] && Replacement(replacement)
    requires QuietParts(parts[..i], pattern)
    ensures ReplaceFirst(Flatten(parts), pattern, replacement) == Flatten(parts[i := replacement])
  {
    var before, after := Flatten(parts[..i]), Flatten(parts[i + 1..]);
    FlattenAround(parts, i);
    QuietFlatten(parts[..i], pattern);
    assert before + [pattern] + after == before + ([pattern] + after);
    ReplaceAfter(before, [pattern] + after, pattern, replacement);
    SpliceWhole(pattern, replacement);
    assert ([pattern] + after)[1..] == after;
    var parts' := parts[i := replacement];
    FlattenAround(parts', i);
    assert parts'[..i] == parts[..i] && parts'[i + 1..] == parts[i + 1..];
    assert before + (replacement + after) == before + replacement + after;
  }

  lemma CountPart(parts: seq<Program>, i: nat, pattern: Line)
    requires i < |parts| && QuietParts(parts[..i], pattern)
    ensures Count(Flatten(parts), pattern) == Count(parts[i], pattern) + Count(Flatten(parts[i + 1..]), pattern)
  {
    FlattenAround(parts, i);
    QuietFlatten(parts[..i], pattern);
    CountQuiet(Flatten(parts[..i]), pattern);
    CountConcat(Flatten(parts[..i]) + parts[i], Flatten(parts[i + 1..]), pattern);
    CountConcat(Flatten(parts[..i]), parts[i], pattern);
  }

  lemma CountOne(parts: seq<Program>, i: nat, pattern: Line)
    requires i < |parts| && QuietParts(parts[..i], pattern) && QuietParts(parts[i + 1..], pattern)
    requires parts[i] == [pattern] && pattern.words != []
    ensures Count(Flatten(parts), pattern) == 1
  {
    CountPart(parts, i, pattern);
    QuietFlatten(parts[i + 1..], pattern);
    CountQuiet(Flatten(parts[i + 1..]), pattern);
    CountItself(pattern);
  }

  lemma CountItself(pattern: Line)
    requires pattern.words != []
    ensures Count([pattern], pattern) == 1
  {
    assert Within(pattern, pattern);
    assert [pattern][1..] == [];
  }

  lemma CountTwo(parts: seq<Program>, i: nat, j: nat, pattern: Line)
    requires i < j < |parts|
    requires forall k | 0 <= k < |parts| && k != i && k != j :: Quiet(parts[k], pattern)
    requires parts[i] == [pattern] && parts[j] == [pattern] && pattern.words != []
    ensures Count(Flatten(parts), pattern) == 2
  {
    hide Quiet, Flatten;
    CountPart(parts, i, pattern);
    var rest, m := parts[i + 1..], j - i - 1;
    assert rest[m] == parts[j];
    forall k | 0 <= k < |rest| && k != m ensures Quiet(rest[k], pattern) {
      assert rest[k] == parts[i + 1 + k];
    }
    var after := rest[m + 1..];
    forall k | 0 <= k < |after| ensures Quiet(after[k], pattern) {
      assert after[k] == rest[m + 1 + k];
    }
    CountOne(rest, m, pattern);
    CountItself(pattern);
  }
}
