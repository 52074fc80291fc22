/** Locating a search block in a file: the line index, the four strategies in escalation order, and the
    re-indentation of a replacement (packages/apply/src/match.ts). */
module Match {
  import opened Text

  datatype Strategy = Exact | WhitespaceNormalized | IndentationTolerant | Anchored

  datatype Indents = Indents(found: string, search: string)

  datatype RawMatch = RawMatch(start: nat, end: nat, line: nat, strategy: Strategy, indents: Option<Indents>)

  /** A line without its terminator, and the offsets of its first character and of what follows its terminator. */
  datatype Line = Line(text: string, start: nat, end: nat)

  // ----- the line index -----

  /** Where the line begins that offset `i` is on. */
  function LineStart(text: string, i: nat): (start: nat)
    requires i <= |text|
    ensures start <= i
  {
    if i == 0 || text[i - 1] == '\n' then i else LineStart(text, i - 1)
  }

  /** The line whose newline is at offset `i`. */
  function LineEndingAt(text: string, i: nat): Line
    requires i < |text|
  {
    Line(DropCr(text[LineStart(text, i)..i]), LineStart(text, i), i + 1)
  }

  /** The lines that end before offset `i`. */
  function LinesUpTo(text: string, i: nat): seq<Line>
    requires i <= |text|
  {
    if i == 0 then []
    else if text[i - 1] == '\n' then LinesUpTo(text, i - 1) + [LineEndingAt(text, i - 1)]
    else LinesUpTo(text, i - 1)
  }

  function Lines(text: string): (r: seq<Line>)
    ensures |r| >= 1
  {
    var start := LineStart(text, |text|);
    LinesUpTo(text, |text|) + [Line(text[start..], start, |text|)]
  }

  method IndexLines(text: string) returns (lines: seq<Line>)
    ensures lines == Lines(text)
  {
    lines := [];
    var start := 0;
    for i := 0 to |text|
      invariant start == LineStart(text, i)
      invariant lines == LinesUpTo(text, i)
    {
      if text[i] == '\n' {
        var hasCr := i > 0 && text[i - 1] == '\r';
        TerminatorCut(text, i);
        lines := lines + [Line(text[start..if hasCr then i - 1 else i], start, i + 1)];
        start := i + 1;
      }
    }
    lines := lines + [Line(text[start..], start, |text|)];
  }

  lemma TerminatorCut(text: string, i: nat)
    requires i < |text|
    ensures var start, cut := LineStart(text, i), if i > 0 && text[i - 1] == '\r' then i - 1 else i;
            start <= cut && text[start..cut] == DropCr(text[start..i])
  {}

  method LineNumberAt(text: string, offset: nat) returns (line: nat)
    requires offset <= |text|
    ensures line == 1 + Newlines(text[..offset])
  {
    line := 1;
    for i := 0 to offset
      invariant line == 1 + Newlines(text[..i])
    {
      assert text[..i + 1][..i] == text[..i];
      if text[i] == '\n' {
        line := line + 1;
      }
    }
  }

  // ----- strategy 1: byte-identical -----

  /** The occurrences that a search from left to right, jumping over each one found, comes upon. */
  function Greedy(haystack: string, needle: string, from: nat): seq<nat>
    requires needle != "" && from <= |haystack|
    decreases |haystack| - from
  {
    match FindFrom(haystack, needle, from)
    case None => []
    case Some(k) => [k] + Greedy(haystack, needle, k + |needle|)
  }

  function ExactAt(haystack: string, needle: string, start: nat): RawMatch
    requires start <= |haystack|
  {
    RawMatch(start, start + |needle|, 1 + Newlines(haystack[..start]), Exact, None)
  }

  /** One match per occurrence that the search comes upon, in the same order. */
  function ExactFrom(haystack: string, needle: string, from: nat): seq<RawMatch>
    requires needle != "" && from <= |haystack|
    decreases |haystack| - from
  {
    match FindFrom(haystack, needle, from)
    case None => []
    case Some(k) => [ExactAt(haystack, needle, k)] + ExactFrom(haystack, needle, k + |needle|)
  }

  function ExactMatches(haystack: string, needle: string): seq<RawMatch>
    requires needle != ""
  {
    ExactFrom(haystack, needle, 0)
  }

  method FindExact(haystack: string, needle: string) returns (out: seq<RawMatch>)
    requires needle != ""
    ensures out == ExactMatches(haystack, needle)
  {
    out := [];
    var from := 0;
    ghost var all := ExactFrom(haystack, needle, 0);
    while true
      invariant from <= |haystack|
      invariant out + ExactFrom(haystack, needle, from) == all
      decreases |haystack| - from
    {
      var found := FindFrom(haystack, needle, from);
      if found.None? {
        assert out + [] == out;
        return;
      }
      var idx := found.value;
      var line := LineNumberAt(haystack, idx);
      var m := RawMatch(idx, idx + |needle|, line, Exact, None);
      ExactFromStep(haystack, needle, from, idx, m, out);
      out := out + [m];
      from := idx + |needle|;
    }
  }

  lemma ExactFromStep(haystack: string, needle: string, from: nat, k: nat, m: RawMatch, out: seq<RawMatch>)
    requires needle != "" && from <= |haystack| && FindFrom(haystack, needle, from) == Some(k)
    requires m == ExactAt(haystack, needle, k)
    ensures out + ExactFrom(haystack, needle, from) == (out + [m]) + ExactFrom(haystack, needle, k + |needle|)
  {
    ExactFromNext(haystack, needle, from, k, m);
    Regroup(out, [m], ExactFrom(haystack, needle, k + |needle|));
  }

  lemma ExactFromNext(haystack: string, needle: string, from: nat, k: nat, m: RawMatch)
    requires needle != "" && from <= |haystack| && FindFrom(haystack, needle, from) == Some(k)
    requires m == ExactAt(haystack, needle, k)
    ensures ExactFrom(haystack, needle, from) == [m] + ExactFrom(haystack, needle, k + |needle|)
  {}

  // ----- line windows -----

  /** The lines of a search block; a trailing newline adds no line. */
  function NeedleLines(needle: string): (r: seq<string>)
    ensures |r| >= 1
  {
    var lines := SplitLines(needle);
    if |lines| > 1 && lines[|lines| - 1] == "" then lines[..|lines| - 1] else lines
  }

  function WindowAt(lines: seq<Line>, m: nat, i: nat, strategy: Strategy, indents: Option<Indents>): RawMatch
    requires 1 <= m && i + m <= |lines|
  {
    RawMatch(lines[i].start, lines[i + m - 1].start + |lines[i + m - 1].text|, i + 1, strategy, indents)
  }

  // ----- strategy 2: internal white space -----

  /** `s.replace(/\s+/g, ' ')` */
  function Collapse(s: string): string
    decreases |s|
  {
    if s == "" then ""
    else if IsSpace(s[0]) then " " + Collapse(TrimStart(s[1..]))
    else [s[0]] + Collapse(s[1..])
  }

  function NormalizeWhitespace(s: string): string {
    Trim(Collapse(s))
  }

  predicate SameNormalized(h: string, n: string) {
    || (IsBlank(h) && IsBlank(n))
    || (LeadingWhitespace(h) == LeadingWhitespace(n) && NormalizeWhitespace(h) == NormalizeWhitespace(n))
  }

  /** The window of lines at `i` agrees with the search lines from the `j`-th on. */
  predicate NormalizedWindow(lines: seq<Line>, n: seq<string>, i: nat, j: nat)
    requires i + |n| <= |lines|
    decreases |n| - j
  {
    j >= |n| || (SameNormalized(lines[i + j].text, n[j]) && NormalizedWindow(lines, n, i, j + 1))
  }

  function NormalizedFound(lines: seq<Line>, n: seq<string>, i: nat): Option<RawMatch> {
    if 1 <= |n| && i + |n| <= |lines| && NormalizedWindow(lines, n, i, 0) then
      Some(WindowAt(lines, |n|, i, WhitespaceNormalized, None))
    else None
  }

  /** The matches among the first `count` windows. */
  function NormalizedUpTo(lines: seq<Line>, n: seq<string>, count: nat): seq<RawMatch> {
    if count == 0 then []
    else match NormalizedFound(lines, n, count - 1)
      case None => NormalizedUpTo(lines, n, count - 1)
      case Some(m) => NormalizedUpTo(lines, n, count - 1) + [m]
  }

  function NormalizedMatches(haystack: string, needle: string): seq<RawMatch> {
    NormalizedUpTo(Lines(haystack), NeedleLines(needle), |Lines(haystack)|)
  }

  method TryNormalized(lines: seq<Line>, n: seq<string>, i: nat) returns (m: Option<RawMatch>)
    requires 1 <= |n| && i + |n| <= |lines|
    ensures m == NormalizedFound(lines, n, i)
  {
    for j := 0 to |n|
      invariant NormalizedWindow(lines, n, i, 0) == NormalizedWindow(lines, n, i, j)
    {
      if !SameNormalized(lines[i + j].text, n[j]) {
        return None;
      }
    }
    var first, last := lines[i], lines[i + |n| - 1];
    m := Some(RawMatch(first.start, last.start + |last.text|, i + 1, WhitespaceNormalized, None));
  }

  method FindNormalized(haystack: string, needle: string) returns (out: seq<RawMatch>)
    ensures out == NormalizedMatches(haystack, needle)
  {
    var lines := IndexLines(haystack);
    var n := NeedleLines(needle);
    out := [];
    var i := 0;
    while i + |n| <= |lines|
      invariant 0 <= i <= |lines|
      invariant out == NormalizedUpTo(lines, n, i)
    {
      var m := TryNormalized(lines, n, i);
      NormalizedNext(lines, n, i, m);
      if m.Some? {
        out := out + [m.value];
      }
      i := i + 1;
    }
    NormalizedTail(lines, n, i, |lines|);
  }

  lemma NormalizedNext(lines: seq<Line>, n: seq<string>, i: nat, m: Option<RawMatch>)
    requires m == NormalizedFound(lines, n, i)
    ensures NormalizedUpTo(lines, n, i + 1) == NormalizedUpTo(lines, n, i) + (match m case None => [] case Some(r) => [r])
  {
    assert m.None? ==> NormalizedUpTo(lines, n, i) + [] == NormalizedUpTo(lines, n, i);
  }

  lemma {:induction false} NormalizedTail(lines: seq<Line>, n: seq<string>, i: nat, count: nat)
    requires i <= count && |lines| < i + |n|
    ensures NormalizedUpTo(lines, n, count) == NormalizedUpTo(lines, n, i)
  {
    if i < count {
      NormalizedTail(lines, n, i, count - 1);
    }
  }

  // ----- strategy 3: a uniform indent shift -----

  /** A search line moved from the indentation `search` to `found`. */
  function Rebase(line: string, indents: Indents): string {
    indents.found + if indents.search <= line then line[|indents.search|..] else TrimStart(line)
  }

  predicate IndentSame(h: string, n: string, indents: Indents) {
    if IsBlank(n) then IsBlank(h) else TrimEnd(h) == TrimEnd(Rebase(n, indents))
  }

  predicate IndentWindow(lines: seq<Line>, n: seq<string>, i: nat, indents: Indents, j: nat)
    requires i + |n| <= |lines|
    decreases |n| - j
  {
    j >= |n| || (IndentSame(lines[i + j].text, n[j], indents) && IndentWindow(lines, n, i, indents, j + 1))
  }

  function IndentFound(lines: seq<Line>, n: seq<string>, i: nat): Option<RawMatch> {
    var anchor := FirstContent(n, 0);
    if anchor < |n| && i + |n| <= |lines| && !IsBlank(lines[i + anchor].text) then
      var indents := Indents(LeadingWhitespace(lines[i + anchor].text), LeadingWhitespace(n[anchor]));
      if IndentWindow(lines, n, i, indents, 0) then
        Some(WindowAt(lines, |n|, i, IndentationTolerant, Some(indents)))
      else None
    else None
  }

  /** The matches among the first `count` windows. */
  function IndentUpTo(lines: seq<Line>, n: seq<string>, count: nat): seq<RawMatch> {
    if count == 0 then []
    else match IndentFound(lines, n, count - 1)
      case None => IndentUpTo(lines, n, count - 1)
      case Some(m) => IndentUpTo(lines, n, count - 1) + [m]
  }

  function IndentMatches(haystack: string, needle: string): seq<RawMatch> {
    IndentUpTo(Lines(haystack), NeedleLines(needle), |Lines(haystack)|)
  }

  method FindIndentTolerant(haystack: string, needle: string) returns (out: seq<RawMatch>)
    ensures out == IndentMatches(haystack, needle)
  {
    var lines := IndexLines(haystack);
    var n := NeedleLines(needle);
    var anchor := 0;
    while anchor < |n| && IsBlank(n[anchor])
      invariant 0 <= anchor <= |n| && FirstContent(n, 0) == FirstContent(n, anchor)
    {
      anchor := anchor + 1;
    }
    if anchor == |n| {
      IndentTail(lines, n, 0, |lines|);
      return [];
    }
    out := FindIndented(lines, n, anchor);
  }

  method FindIndented(lines: seq<Line>, n: seq<string>, anchor: nat) returns (out: seq<RawMatch>)
    requires anchor == FirstContent(n, 0) < |n|
    ensures out == IndentUpTo(lines, n, |lines|)
  {
    out := [];
    var i := 0;
    while i + |n| <= |lines|
      invariant 0 <= i <= |lines|
      invariant out == IndentUpTo(lines, n, i)
    {
      var m := TryIndent(lines, n, anchor, i);
      IndentNext(lines, n, i, m);
      if m.Some? {
        out := out + [m.value];
      }
      i := i + 1;
    }
    IndentTail(lines, n, i, |lines|);
  }

  lemma IndentNext(lines: seq<Line>, n: seq<string>, i: nat, m: Option<RawMatch>)
    requires m == IndentFound(lines, n, i)
    ensures IndentUpTo(lines, n, i + 1) == IndentUpTo(lines, n, i) + (match m case None => [] case Some(r) => [r])
  {
    assert m.None? ==> IndentUpTo(lines, n, i) + [] == IndentUpTo(lines, n, i);
  }

  method TryIndent(lines: seq<Line>, n: seq<string>, anchor: nat, i: nat) returns (m: Option<RawMatch>)
    requires i + |n| <= |lines| && anchor == FirstContent(n, 0) < |n|
    ensures m == IndentFound(lines, n, i)
  {
    var anchorHay := lines[i + anchor].text;
    if IsBlank(anchorHay) {
      return None;
    }
    var indents := Indents(LeadingWhitespace(anchorHay), LeadingWhitespace(n[anchor]));
    var all := WindowFits(lines, n, i, indents);
    var first, last := lines[i], lines[i + |n| - 1];
    m := if all then Some(RawMatch(first.start, last.start + |last.text|, i + 1, IndentationTolerant, Some(indents))) else None;
  }

  lemma {:induction false} IndentTail(lines: seq<Line>, n: seq<string>, i: nat, count: nat)
    requires i <= count && (|lines| < i + |n| || FirstContent(n, 0) == |n|)
    ensures IndentUpTo(lines, n, count) == IndentUpTo(lines, n, i)
  {
    if i < count {
      IndentTail(lines, n, i, count - 1);
    }
  }

  method WindowFits(lines: seq<Line>, n: seq<string>, i: nat, indents: Indents) returns (all: bool)
    requires i + |n| <= |lines|
    ensures all == IndentWindow(lines, n, i, indents, 0)
  {
    for j := 0 to |n|
      invariant IndentWindow(lines, n, i, indents, 0) == IndentWindow(lines, n, i, indents, j)
    {
      var h := lines[i + j].text;
      if IsBlank(n[j]) {
        if !IsBlank(h) {
          return false;
        }
        continue;
      }
      var rebased := if indents.search <= n[j]
      then indents.found + n[j][|indents.search|..]
      else indents.found + TrimStart(n[j]);
      if TrimEnd(h) != TrimEnd(rebased) {
        return false;
      }
    }
    return true;
  }

  // ----- strategy 4: anchors around an elision -----

  /** The longest run of `c` at the front removed. */
  function DropRun(s: string, c: char): string {
    if s != "" && s[0] == c then DropRun(s[1..], c) else s
  }

  /** The comment prefix that a line may carry before an elision marker, removed. */
  function DropCommentPrefix(t: string): string {
    if "//" <= t then TrimStart(DropRun(t, '/'))
    else if "#" <= t then TrimStart(DropRun(t, '#'))
    else if "--" <= t then TrimStart(DropRun(t, '-'))
    else if ";" <= t then TrimStart(DropRun(t, ';'))
    else if "/*" <= t then TrimStart(DropRun(t[1..], '*'))
    else if "*" <= t then TrimStart(DropRun(t, '*'))
    else if "<!--" <= t then TrimStart(t[4..])
    else t
  }

  predicate IsElisionLine(line: string) {
    var t := Trim(line);
    t != "" && "..." <= DropCommentPrefix(t)
  }

  function Keys(lines: seq<Line>): (r: seq<string>)
    ensures |r| == |lines|
    ensures forall k :: 0 <= k < |r| ==> r[k] == NormalizeWhitespace(lines[k].text)
  {
    seq(|lines|, k requires 0 <= k < |lines| => NormalizeWhitespace(lines[k].text))
  }

  /** The places among the first `count` that hold `key`, ascending. */
  function PlacesOf(keys: seq<string>, key: string, count: nat): (r: seq<nat>)
    requires count <= |keys|
  {
    if count == 0 then []
    else if keys[count - 1] == key then PlacesOf(keys, key, count - 1) + [count - 1]
    else PlacesOf(keys, key, count - 1)
  }

  lemma {:induction false} PlacesOfIs(keys: seq<string>, key: string, count: nat, k: nat)
    requires count <= |keys|
    ensures k in PlacesOf(keys, key, count) <==> k < count && keys[k] == key
  {
    if count > 0 {
      PlacesOfIs(keys, key, count - 1, k);
    }
  }

  predicate Elides(n: seq<string>) {
    |n| >= 3 && exists k :: 1 <= k < |n| - 1 && IsElisionLine(n[k])
  }

  /** The first and the last line of the span between two anchors that are unique and in order. */
  function AnchorSpan(keys: seq<string>, first: string, last: string): (span: Option<(nat, nat)>)
    ensures span.Some? ==> span.value.0 < span.value.1 < |keys|
  {
    var starts, ends := PlacesOf(keys, first, |keys|), PlacesOf(keys, last, |keys|);
    if |starts| == 1 && |ends| == 1 && starts[0] < ends[0] then
      PlacesOfIs(keys, last, |keys|, ends[0]);
      Some((starts[0], ends[0]))
    else None
  }

  function AnchoredMatches(haystack: string, needle: string): seq<RawMatch> {
    AnchoredIn(Lines(haystack), NeedleLines(needle))
  }

  function AnchoredIn(lines: seq<Line>, n: seq<string>): seq<RawMatch> {
    if !Elides(n) then [] else AnchoredBetween(lines, NormalizeWhitespace(n[0]), NormalizeWhitespace(n[|n| - 1]))
  }

  function AnchoredBetween(lines: seq<Line>, firstKey: string, lastKey: string): seq<RawMatch> {
    if firstKey == "" || lastKey == "" then [] else SpanMatch(lines, AnchorSpan(Keys(lines), firstKey, lastKey))
  }

  function SpanMatch(lines: seq<Line>, span: Option<(nat, nat)>): seq<RawMatch>
    requires span.Some? ==> span.value.0 < span.value.1 < |lines|
  {
    match span
    case None => []
    case Some((s, e)) => [WindowAt(lines, e - s + 1, s, Anchored, None)]
  }

  method FindAnchored(haystack: string, needle: string) returns (out: seq<RawMatch>)
    ensures out == AnchoredMatches(haystack, needle)
  {
    var lines := IndexLines(haystack);
    var n := NeedleLines(needle);
    if |n| < 3 || !exists k :: 1 <= k < |n| - 1 && IsElisionLine(n[k]) {
      return [];
    }
    out := FindBetween(lines, NormalizeWhitespace(n[0]), NormalizeWhitespace(n[|n| - 1]));
  }

  method FindBetween(lines: seq<Line>, firstKey: string, lastKey: string) returns (out: seq<RawMatch>)
    ensures out == AnchoredBetween(lines, firstKey, lastKey)
  {
    if |firstKey| == 0 || |lastKey| == 0 {
      return [];
    }
    var span := FindSpan(lines, firstKey, lastKey);
    if span.None? {
      return [];
    }
    var s, e := span.value.0, span.value.1;
    out := [WindowAt(lines, e - s + 1, s, Anchored, None)];
  }

  method FindSpan(lines: seq<Line>, firstKey: string, lastKey: string) returns (span: Option<(nat, nat)>)
    ensures span == AnchorSpan(Keys(lines), firstKey, lastKey)
  {
    var startIdxs: seq<nat>, endIdxs: seq<nat> := [], [];
    ghost var keys := Keys(lines);
    for i: nat := 0 to |lines|
      invariant startIdxs == PlacesOf(keys, firstKey, i)
      invariant endIdxs == PlacesOf(keys, lastKey, i)
    {
      var key := NormalizeWhitespace(lines[i].text);
      if key == firstKey {
        startIdxs := startIdxs + [i];
      }
      if key == lastKey {
        endIdxs := endIdxs + [i];
      }
    }
    if |startIdxs| != 1 || |endIdxs| != 1 {
      return None;
    }
    var s, e := startIdxs[0], endIdxs[0];
    span := if e <= s then None else Some((s, e));
  }

  // ----- escalation -----

  function Strategies(haystack: string, needle: string, strategy: Strategy): seq<RawMatch>
    requires needle != ""
  {
    match strategy
    case Exact => ExactMatches(haystack, needle)
    case WhitespaceNormalized => NormalizedMatches(haystack, needle)
    case IndentationTolerant => IndentMatches(haystack, needle)
    case Anchored => AnchoredMatches(haystack, needle)
  }

  /** All matches of the first strategy that has any. */
  function Matches(haystack: string, needle: string): seq<RawMatch> {
    if needle == "" then []
    else if ExactMatches(haystack, needle) != [] then ExactMatches(haystack, needle)
    else if NormalizedMatches(haystack, needle) != [] then NormalizedMatches(haystack, needle)
    else if IndentMatches(haystack, needle) != [] then IndentMatches(haystack, needle)
    else AnchoredMatches(haystack, needle)
  }

  method FindMatch(haystack: string, needle: string) returns (matches: seq<RawMatch>, strategy: Option<Strategy>)
    ensures matches == Matches(haystack, needle)
    ensures strategy == if matches == [] then None else Some(matches[0].strategy)
  {
    if |needle| == 0 {
      return [], None;
    }
    matches := FindExact(haystack, needle);
    if matches == [] {
      matches := FindNormalized(haystack, needle);
    }
    if matches == [] {
      matches := FindIndentTolerant(haystack, needle);
    }
    if matches == [] {
      matches := FindAnchored(haystack, needle);
    }
    strategy := if matches == [] then None else Some(matches[0].strategy);
  }

  // ----- re-indentation -----

  function ReindentLine(line: string, indents: Indents): string {
    if IsBlank(line) then line else Rebase(line, indents)
  }

  function ReindentLines(lines: seq<string>, indents: Indents): (r: seq<string>)
    ensures |r| == |lines| && forall k :: 0 <= k < |r| ==> r[k] == ReindentLine(lines[k], indents)
  {
    seq(|lines|, k requires 0 <= k < |lines| => ReindentLine(lines[k], indents))
  }

  function ReindentReplacement(replacement: string, m: RawMatch): string {
    if m.indents.None? || m.indents.value.found == m.indents.value.search then replacement
    else Join(ReindentLines(SplitLines(replacement), m.indents.value), "\n")
  }
}
