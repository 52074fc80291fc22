/** What the match strategies promise: the exact search finds as many places as there can be, the line index
    is exact, every reported line number is right, and re-indenting undoes indentation tolerance. */
module MatchFacts {
  import opened Text
  import opened Match

  // ----- the exact search -----

  /** Occurrences in order, none overlapping the next. */
  ghost predicate Disjoint(haystack: string, needle: string, places: seq<nat>) {
    && (forall k :: 0 <= k < |places| ==> Occurs(haystack, needle, places[k]))
    && (forall k :: 0 <= k < |places| - 1 ==> places[k] + |needle| <= places[k + 1])
  }

  lemma {:induction false} GreedyIsDisjoint(haystack: string, needle: string, from: nat)
    requires needle != "" && from <= |haystack|
    ensures var g := Greedy(haystack, needle, from);
            Disjoint(haystack, needle, g) && (g != [] ==> from <= g[0])
    decreases |haystack| - from
  {
    var found := FindFrom(haystack, needle, from);
    if found.Some? {
      GreedyIsDisjoint(haystack, needle, found.value + |needle|);
    }
  }

  /** No set of disjoint occurrences is larger than the one the search finds. */
  lemma {:induction false} GreedyIsMaximum(haystack: string, needle: string, from: nat, places: seq<nat>)
    requires needle != "" && from <= |haystack|
    requires Disjoint(haystack, needle, places) && (places != [] ==> from <= places[0])
    ensures |places| <= |Greedy(haystack, needle, from)|
    decreases |places|
  {
    if places != [] {
      FindFromLeftmost(haystack, needle, from);
      assert Occurs(haystack, needle, places[0]);
      var k := FindFrom(haystack, needle, from).value;
      var others := places[1..];
      assert forall j :: 0 <= j < |others| ==> others[j] == places[j + 1];
      GreedyIsMaximum(haystack, needle, k + |needle|, others);
    }
  }

  /** Every occurrence overlaps one that the search finds. */
  lemma {:induction false} GreedyCovers(haystack: string, needle: string, from: nat, p: nat)
    requires needle != "" && from <= p && Occurs(haystack, needle, p)
    ensures exists g <- Greedy(haystack, needle, from) :: g <= p < g + |needle|
    decreases |haystack| - from
  {
    FindFromLeftmost(haystack, needle, from);
    var k := FindFrom(haystack, needle, from).value;
    var g := Greedy(haystack, needle, from);
    assert g[0] == k && g[0] in g && k <= p;
    if k + |needle| <= p {
      GreedyCovers(haystack, needle, k + |needle|, p);
      var x :| x in Greedy(haystack, needle, k + |needle|) && x <= p < x + |needle|;
      assert x in g;
    }
  }

  lemma {:induction false} ExactIsGreedy(haystack: string, needle: string, from: nat)
    requires needle != "" && from <= |haystack|
    ensures var g, e := Greedy(haystack, needle, from), ExactFrom(haystack, needle, from);
            |g| == |e| && forall k :: 0 <= k < |g| ==> g[k] <= |haystack| && e[k] == ExactAt(haystack, needle, g[k])
    decreases |haystack| - from
  {
    var found := FindFrom(haystack, needle, from);
    if found.Some? {
      ExactIsGreedy(haystack, needle, found.value + |needle|);
    }
  }

  /** A block that occurs exactly has more than one match exactly when two occurrences do not overlap, and its
      first match is the leftmost occurrence. */
  lemma ExactMatchesAmbiguity(haystack: string, needle: string)
    requires needle != "" && Find(haystack, needle).Some?
    ensures var matches := Matches(haystack, needle);
            && matches == ExactMatches(haystack, needle) && |matches| >= 1
            && matches[0].start == Find(haystack, needle).value && matches[0].end == matches[0].start + |needle|
            && (|matches| > 1 <==> exists p: nat, q: nat :: Occurs(haystack, needle, p) && Occurs(haystack, needle, q) && p + |needle| <= q)
  {
    FindLeftmost(haystack, needle);
    FindFromLeftmost(haystack, needle, 0);
    ExactIsGreedy(haystack, needle, 0);
    GreedyIsDisjoint(haystack, needle, 0);
    var g := Greedy(haystack, needle, 0);
    var first := FindFrom(haystack, needle, 0).value;
    assert first == Find(haystack, needle).value;
    assert |g| >= 1 && g[0] == first;
    if |g| > 1 {
      assert Occurs(haystack, needle, g[0]) && Occurs(haystack, needle, g[1]);
    }
    forall p: nat, q: nat | Occurs(haystack, needle, p) && Occurs(haystack, needle, q) && p + |needle| <= q ensures |g| > 1 {
      GreedyIsMaximum(haystack, needle, 0, [p, q]);
    }
  }

  // ----- the line index -----

  /** `line` is the `k`-th line of `text`, and its newline is in place. */
  ghost predicate EndedLine(text: string, line: Line, k: int) {
    && line.start < line.end <= |text|
    && text[line.end - 1] == '\n' && '\n' !in text[line.start..line.end - 1]
    && line.text == DropCr(text[line.start..line.end - 1])
    && Newlines(text[..line.start]) == k
  }

  lemma {:induction false} LineStartIs(text: string, i: nat)
    requires i <= |text|
    ensures var start := LineStart(text, i);
            '\n' !in text[start..i] && Newlines(text[..start]) == Newlines(text[..i]) == |LinesUpTo(text, i)|
  {
    if i > 0 {
      LineStartIs(text, i - 1);
      NewlinesNext(text, i);
      if text[i - 1] != '\n' {
        OneMoreFree(text, LineStart(text, i), i);
      }
    }
  }

  lemma NewlinesNext(text: string, i: nat)
    requires 0 < i <= |text|
    ensures Newlines(text[..i]) == Newlines(text[..i - 1]) + if text[i - 1] == '\n' then 1 else 0
  {
    assert text[..i][..i - 1] == text[..i - 1];
  }

  lemma OneMoreFree(text: string, start: nat, i: nat)
    requires start < i <= |text| && '\n' !in text[start..i - 1] && text[i - 1] != '\n'
    ensures '\n' !in text[start..i]
  {
    assert text[start..i] == text[start..i - 1] + [text[i - 1]];
  }

  lemma {:induction false} StartFollowsEnd(text: string, i: nat)
    requires i <= |text|
    ensures var ls := LinesUpTo(text, i); LineStart(text, i) == if ls == [] then 0 else ls[|ls| - 1].end
  {
    if i > 0 && text[i - 1] != '\n' {
      StartFollowsEnd(text, i - 1);
    }
  }

  lemma {:induction false} LineUpToIs(text: string, i: nat, k: nat)
    requires i <= |text| && k < |LinesUpTo(text, i)|
    ensures var ls := LinesUpTo(text, i);
            EndedLine(text, ls[k], k) && ls[k].start == if k == 0 then 0 else ls[k - 1].end
  {
    var before := LinesUpTo(text, i - 1);
    if k < |before| {
      LineUpToIs(text, i - 1, k);
    } else {
      LineStartIs(text, i - 1);
      StartFollowsEnd(text, i - 1);
    }
  }

  /** The `k`-th line of an index: it begins where the one before ends, and all but the last have their newline. */
  ghost predicate Placed(text: string, lines: seq<Line>, k: nat)
    requires k < |lines|
  {
    && lines[k].start == (if k == 0 then 0 else lines[k - 1].end)
    && (if k < |lines| - 1 then EndedLine(text, lines[k], k)
        else
          && lines[k].start <= lines[k].end == |text| && lines[k].text == text[lines[k].start..]
          && '\n' !in lines[k].text && Newlines(text[..lines[k].start]) == k)
  }

  lemma LineIs(text: string, k: nat)
    requires k < |Lines(text)|
    ensures Placed(text, Lines(text), k)
  {
    if k < |Lines(text)| - 1 {
      LineUpToIs(text, |text|, k);
    } else {
      LineStartIs(text, |text|);
      StartFollowsEnd(text, |text|);
      var start := LineStart(text, |text|);
      assert text[start..|text|] == text[start..];
    }
  }

  /** The first `n` lines of `lines` are placed in `text`. */
  ghost predicate Indexed(text: string, lines: seq<Line>, n: nat)
    requires n <= |lines|
  {
    n == 0 || (Placed(text, lines, n - 1) && Indexed(text, lines, n - 1))
  }

  ghost predicate IsIndex(text: string, lines: seq<Line>) {
    lines != [] && Indexed(text, lines, |lines|)
  }

  lemma {:induction false} IndexedAt(text: string, lines: seq<Line>, n: nat, k: nat)
    requires k < n <= |lines| && Indexed(text, lines, n)
    ensures Placed(text, lines, k)
  {
    if k < n - 1 {
      IndexedAt(text, lines, n - 1, k);
    }
  }

  lemma {:induction false} LinesIndexed(text: string, n: nat)
    requires n <= |Lines(text)|
    ensures Indexed(text, Lines(text), n)
  {
    if n > 0 {
      LineIs(text, n - 1);
      LinesIndexed(text, n - 1);
    }
  }

  lemma LinesIsIndex(text: string)
    ensures IsIndex(text, Lines(text))
  {
    LinesIndexed(text, |Lines(text)|);
  }

  lemma LineFacts(text: string, lines: seq<Line>, k: nat)
    requires IsIndex(text, lines) && k < |lines|
    ensures var line := lines[k];
            line.start + |line.text| <= line.end <= |text| && '\n' !in line.text && Newlines(text[..line.start]) == k
  {
    IndexedAt(text, lines, |lines|, k);
    var line := lines[k];
    if k < |lines| - 1 {
      assert forall c <- line.text :: c in text[line.start..line.end - 1];
    }
  }

  /** What a line index has to be: there is a line for each newline and one more; it starts at 0 and ends at
      the end; each line begins where the one before ends; only its terminator holds a newline. */
  ghost predicate Partition(text: string, lines: seq<Line>) {
    && |lines| == Newlines(text) + 1
    && lines[0].start == 0 && lines[|lines| - 1].end == |text|
    && (forall k {:trigger lines[k]} :: 0 < k < |lines| ==> lines[k].start == lines[k - 1].end)
    && (forall k :: 0 <= k < |lines| - 1 ==> EndedLine(text, lines[k], k))
    && lines[|lines| - 1].text == text[lines[|lines| - 1].start..] && '\n' !in lines[|lines| - 1].text
  }

  lemma LinesPartition(text: string)
    ensures Partition(text, Lines(text))
  {
    LinesIsIndex(text);
    LineStartIs(text, |text|);
    assert text[..|text|] == text;
    IndexIsPartition(text, Lines(text));
  }

  lemma IndexIsPartition(text: string, lines: seq<Line>)
    requires IsIndex(text, lines) && |lines| == Newlines(text) + 1
    ensures Partition(text, lines)
  {
    IndexedAt(text, lines, |lines|, 0);
    IndexedAt(text, lines, |lines|, |lines| - 1);
    forall k {:trigger lines[k]} | 0 < k < |lines| ensures lines[k].start == lines[k - 1].end {
      IndexedAt(text, lines, |lines|, k);
    }
    forall k | 0 <= k < |lines| - 1 ensures EndedLine(text, lines[k], k) {
      IndexedAt(text, lines, |lines|, k);
    }
  }

  /** The terminator that a line has in the text. */
  function Terminator(text: string, line: Line): string {
    if line.start + |line.text| <= line.end <= |text| then text[line.start + |line.text|..line.end] else ""
  }

  function Rebuild(text: string, lines: seq<Line>, count: nat): string
    requires count <= |lines|
  {
    if count == 0 then "" else Rebuild(text, lines, count - 1) + (lines[count - 1].text + Terminator(text, lines[count - 1]))
  }

  lemma LineInPlace(text: string, lines: seq<Line>, k: nat)
    requires IsIndex(text, lines) && k < |lines|
    ensures var line := lines[k];
            var mid := line.start + |line.text|;
            && mid <= line.end <= |text| && line.text == text[line.start..mid]
            && (if k < |lines| - 1 then IsNewline(text[mid..line.end]) else mid == line.end)
  {
    IndexedAt(text, lines, |lines|, k);
    var line := lines[k];
    if k < |lines| - 1 {
      DropCrRest(text, line.start, line.end - 1);
    }
  }

  lemma SliceJoin(text: string, a: nat, b: nat, c: nat)
    requires a <= b <= c <= |text|
    ensures text[a..b] + text[b..c] == text[a..c]
  {}

  lemma LineAndTerminator(text: string, lines: seq<Line>, k: nat)
    requires IsIndex(text, lines) && k < |lines|
    ensures var line := lines[k];
            && line.start <= line.end <= |text|
            && line.text + Terminator(text, line) == text[line.start..line.end]
            && (if k < |lines| - 1 then IsNewline(Terminator(text, line)) else Terminator(text, line) == "")
  {
    LineInPlace(text, lines, k);
    SliceJoin(text, lines[k].start, lines[k].start + |lines[k].text|, lines[k].end);
  }

  lemma LineBegins(text: string, lines: seq<Line>, k: nat)
    requires IsIndex(text, lines) && k < |lines|
    ensures lines[k].start == (if k == 0 then 0 else lines[k - 1].end) && (k == |lines| - 1 ==> lines[k].end == |text|)
  {
    IndexedAt(text, lines, |lines|, k);
  }

  lemma {:induction false} RebuildIsPrefix(text: string, lines: seq<Line>, count: nat)
    requires IsIndex(text, lines) && 1 <= count <= |lines|
    ensures lines[count - 1].end <= |text| && Rebuild(text, lines, count) == text[..lines[count - 1].end]
    decreases count
  {
    LineBegins(text, lines, count - 1);
    if count > 1 {
      RebuildIsPrefix(text, lines, count - 1);
    }
    LineAndTerminator(text, lines, count - 1);
    RebuildNext(text, lines, count, lines[count - 1].start, lines[count - 1].end);
  }

  lemma RebuildNext(text: string, lines: seq<Line>, count: nat, start: nat, end: nat)
    requires 1 <= count <= |lines| && start <= end <= |text| && Rebuild(text, lines, count - 1) == text[..start]
    requires lines[count - 1].start + |lines[count - 1].text| <= lines[count - 1].end <= |text|
    requires lines[count - 1].text + Terminator(text, lines[count - 1]) == text[start..end]
    ensures Rebuild(text, lines, count) == text[..end]
  {
    AppendSlice(text, start, end);
  }

  lemma AppendSlice(text: string, start: nat, end: nat)
    requires start <= end <= |text|
    ensures text[..start] + text[start..end] == text[..end]
  {}

  /** Line texts and terminators put together again are the text. */
  lemma IndexRebuildsText(text: string, lines: seq<Line>)
    requires IsIndex(text, lines)
    ensures Rebuild(text, lines, |lines|) == text
  {
    LineBegins(text, lines, |lines| - 1);
    RebuildIsPrefix(text, lines, |lines|);
    assert text[..|text|] == text;
  }

  lemma LinesRebuildText(text: string)
    ensures Rebuild(text, Lines(text), |Lines(text)|) == text
  {
    LinesIsIndex(text);
    IndexRebuildsText(text, Lines(text));
  }

  predicate IsNewline(s: string) {
    s == "\n" || s == "\r\n"
  }

  lemma DropCrRest(text: string, start: nat, newline: nat)
    requires start <= newline < |text| && text[newline] == '\n'
    ensures var cut := DropCr(text[start..newline]);
            && cut == text[start..start + |cut|]
            && IsNewline(text[start + |cut|..newline + 1])
  {
    var cut := DropCr(text[start..newline]);
    if |cut| == newline - start {
      assert text[newline..newline + 1] == "\n";
    } else {
      assert text[newline - 1] == '\r';
      assert text[newline - 1..newline + 1] == "\r\n";
    }
  }

  function Texts(lines: seq<Line>): (r: seq<string>)
    ensures |r| == |lines|
    ensures forall k :: 0 <= k < |r| ==> r[k] == lines[k].text
  {
    seq(|lines|, k requires 0 <= k < |lines| => lines[k].text)
  }

  lemma WindowStep(text: string, lines: seq<Line>, i: nat, end: nat)
    requires IsIndex(text, lines) && i + 1 < |lines| && lines[i + 1].start <= end <= |text|
    ensures var first, next := lines[i], lines[i + 1].start;
            first.start <= next && SplitLines(text[first.start..end]) == [first.text] + SplitLines(text[next..end])
  {
    IndexedAt(text, lines, |lines|, i);
    LineBegins(text, lines, i + 1);
    FirstLineSplits(text, lines[i].start, lines[i].end, end);
  }

  lemma TextsCons(lines: seq<Line>, i: nat, m: nat)
    requires 1 <= m && i + m <= |lines|
    ensures Texts(lines[i..i + m]) == [lines[i].text] + Texts(lines[i + 1..i + m])
  {}

  lemma OneLineWindow(text: string, lines: seq<Line>, i: nat)
    requires IsIndex(text, lines) && i < |lines|
    ensures var end := lines[i].start + |lines[i].text|;
            end <= |text| && SplitLines(text[lines[i].start..end]) == [lines[i].text]
  {
    LineInPlace(text, lines, i);
    LineFacts(text, lines, i);
    NoNewlineSplits(lines[i].text);
  }

  lemma {:induction false} LinesSplit(text: string, lines: seq<Line>, i: nat, m: nat, end: nat)
    requires IsIndex(text, lines) && 1 <= m && i + m <= |lines| && end == lines[i + m - 1].start + |lines[i + m - 1].text|
    ensures lines[i].start <= end <= |text| && SplitLines(text[lines[i].start..end]) == Texts(lines[i..i + m])
    decreases m
  {
    if m == 1 {
      OneLineWindow(text, lines, i);
      TextsCons(lines, i, 1);
    } else {
      LinesSplit(text, lines, i + 1, m - 1, end);
      MoreLinesSplit(text, lines, i, m, end);
    }
  }

  /** The text of a window splits into the texts of its lines. */
  lemma WindowSplits(text: string, lines: seq<Line>, i: nat, m: nat)
    requires IsIndex(text, lines) && 1 <= m && i + m <= |lines|
    ensures var w := WindowAt(lines, m, i, Exact, None);
            w.start <= w.end <= |text| && SplitLines(text[w.start..w.end]) == Texts(lines[i..i + m])
  {
    LinesSplit(text, lines, i, m, lines[i + m - 1].start + |lines[i + m - 1].text|);
  }

  lemma MoreLinesSplit(text: string, lines: seq<Line>, i: nat, m: nat, end: nat)
    requires IsIndex(text, lines) && 2 <= m && i + m <= |lines| && lines[i + 1].start <= end <= |text|
    requires SplitLines(text[lines[i + 1].start..end]) == Texts(lines[i + 1..i + m])
    ensures lines[i].start <= end && SplitLines(text[lines[i].start..end]) == Texts(lines[i..i + m])
  {
    WindowStep(text, lines, i, end);
    TextsCons(lines, i, m);
  }

  lemma FirstLineSplits(text: string, start: nat, next: nat, end: nat)
    requires start < next <= end <= |text| && text[next - 1] == '\n' && '\n' !in text[start..next - 1]
    ensures SplitLines(text[start..end]) == [DropCr(text[start..next - 1])] + SplitLines(text[next..end])
  {
    var region, nl := text[start..end], next - 1 - start;
    assert region[..nl] == text[start..next - 1];
    assert region[nl + 1..] == text[next..end];
    SplitLinesStep(region, nl);
  }

  lemma NoNewlineSplits(s: string)
    requires '\n' !in s
    ensures SplitLines(s) == [s]
  {
    assert FirstIndex(s, '\n') == |s|;
  }

  lemma IndexTextsAreSplit(text: string, lines: seq<Line>)
    requires IsIndex(text, lines)
    ensures Texts(lines) == SplitLines(text)
  {
    LineBegins(text, lines, 0);
    var last := lines[|lines| - 1];
    LineFacts(text, lines, |lines| - 1);
    IndexedAt(text, lines, |lines|, |lines| - 1);
    WindowSplits(text, lines, 0, |lines|);
    assert last.start + |last.text| == |text|;
    assert lines[0..|lines|] == lines;
    assert text[0..|text|] == text;
  }

  /** The line texts are what splitting the text at its line ends gives. */
  lemma LineTextsAreSplit(text: string)
    ensures Texts(Lines(text)) == SplitLines(text)
  {
    LinesIsIndex(text);
    IndexTextsAreSplit(text, Lines(text));
  }

  // ----- where matches are -----

  ghost predicate WellPlaced(haystack: string, m: RawMatch) {
    m.start <= m.end <= |haystack| && m.line == 1 + Newlines(haystack[..m.start])
  }

  lemma WindowWellPlaced(haystack: string, lines: seq<Line>, m: nat, i: nat, strategy: Strategy, indents: Option<Indents>)
    requires IsIndex(haystack, lines) && 1 <= m && i + m <= |lines|
    ensures WellPlaced(haystack, WindowAt(lines, m, i, strategy, indents))
  {
    WindowSplits(haystack, lines, i, m);
    LineFacts(haystack, lines, i);
  }

  lemma {:induction false} NormalizedUpToIs(lines: seq<Line>, n: seq<string>, count: nat, m: RawMatch)
    ensures m in NormalizedUpTo(lines, n, count) <==> exists i: nat :: i < count && NormalizedFound(lines, n, i) == Some(m)
  {
    if count > 0 {
      NormalizedUpToIs(lines, n, count - 1, m);
    }
  }

  /** One of the first `count` windows is reported as `m`. */
  ghost predicate IndentAmong(lines: seq<Line>, n: seq<string>, count: nat, m: RawMatch) {
    exists i: nat :: i < count && IndentFound(lines, n, i) == Some(m)
  }

  lemma IndentAmongNext(lines: seq<Line>, n: seq<string>, count: nat, m: RawMatch)
    requires count > 0
    ensures IndentAmong(lines, n, count, m) <==> IndentAmong(lines, n, count - 1, m) || IndentFound(lines, n, count - 1) == Some(m)
  {}

  lemma {:induction false} IndentUpToIs(lines: seq<Line>, n: seq<string>, count: nat, m: RawMatch)
    ensures m in IndentUpTo(lines, n, count) <==> IndentAmong(lines, n, count, m)
  {
    if count > 0 {
      IndentUpToIs(lines, n, count - 1, m);
      IndentAmongNext(lines, n, count, m);
    }
  }

  /** Every match of every strategy lies in the file, and its line number is one more than the newlines before it. */
  lemma EveryMatchWellPlaced(haystack: string, needle: string, m: RawMatch, strategy: Strategy)
    requires needle != "" && m in Strategies(haystack, needle, strategy)
    ensures WellPlaced(haystack, m) && m.strategy == strategy
  {
    match strategy {
      case Exact => ExactWellPlaced(haystack, needle, m);
      case WhitespaceNormalized =>
        LinesIsIndex(haystack);
        NormalizedWellPlaced(haystack, Lines(haystack), NeedleLines(needle), m);
      case IndentationTolerant =>
        LinesIsIndex(haystack);
        IndentWellPlaced(haystack, Lines(haystack), NeedleLines(needle), m);
      case Anchored => SpanWellPlaced(haystack, needle, m);
    }
  }

  /** The two lines that an anchored match was searched with. */
  lemma AnchorsOf(lines: seq<Line>, n: seq<string>, m: RawMatch) returns (first: string, last: string)
    requires m in AnchoredIn(lines, n)
    ensures m in AnchoredBetween(lines, first, last)
  {
    first, last := NormalizeWhitespace(n[0]), NormalizeWhitespace(n[|n| - 1]);
  }

  lemma SpanWellPlaced(haystack: string, needle: string, m: RawMatch)
    requires m in AnchoredMatches(haystack, needle)
    ensures WellPlaced(haystack, m) && m.strategy == Anchored
  {
    var first, last := AnchorsOf(Lines(haystack), NeedleLines(needle), m);
    LinesIsIndex(haystack);
    AnchoredWellPlaced(haystack, Lines(haystack), first, last, m);
  }

  lemma NormalizedFoundIs(lines: seq<Line>, n: seq<string>, i: nat)
    requires NormalizedFound(lines, n, i).Some?
    ensures 1 <= |n| && i + |n| <= |lines| && NormalizedFound(lines, n, i).value == WindowAt(lines, |n|, i, WhitespaceNormalized, None)
  {}

  lemma IndentFoundIs(lines: seq<Line>, n: seq<string>, i: nat)
    requires IndentFound(lines, n, i).Some?
    ensures var m := IndentFound(lines, n, i).value;
            1 <= |n| && i + |n| <= |lines| && m == WindowAt(lines, |n|, i, IndentationTolerant, m.indents)
  {}

  lemma NormalizedWellPlaced(haystack: string, lines: seq<Line>, n: seq<string>, m: RawMatch)
    requires IsIndex(haystack, lines) && m in NormalizedUpTo(lines, n, |lines|)
    ensures WellPlaced(haystack, m) && m.strategy == WhitespaceNormalized
  {
    NormalizedUpToIs(lines, n, |lines|, m);
    var i: nat :| NormalizedFound(lines, n, i) == Some(m);
    NormalizedFoundIs(lines, n, i);
    WindowWellPlaced(haystack, lines, |n|, i, WhitespaceNormalized, None);
  }

  lemma IndentWellPlaced(haystack: string, lines: seq<Line>, n: seq<string>, m: RawMatch)
    requires IsIndex(haystack, lines) && m in IndentUpTo(lines, n, |lines|)
    ensures WellPlaced(haystack, m) && m.strategy == IndentationTolerant
  {
    IndentUpToIs(lines, n, |lines|, m);
    var i: nat :| IndentFound(lines, n, i) == Some(m);
    IndentFoundIs(lines, n, i);
    WindowWellPlaced(haystack, lines, |n|, i, IndentationTolerant, m.indents);
  }

  lemma ExactWellPlaced(haystack: string, needle: string, m: RawMatch)
    requires needle != "" && m in ExactMatches(haystack, needle)
    ensures WellPlaced(haystack, m) && m.strategy == Exact && haystack[m.start..m.end] == needle
  {
    ExactIsGreedy(haystack, needle, 0);
    GreedyIsDisjoint(haystack, needle, 0);
    var g := Greedy(haystack, needle, 0);
    var k :| 0 <= k < |g| && m == ExactAt(haystack, needle, g[k]);
    assert Occurs(haystack, needle, g[k]);
  }

  lemma AnchoredWellPlaced(haystack: string, lines: seq<Line>, first: string, last: string, m: RawMatch)
    requires IsIndex(haystack, lines) && m in AnchoredBetween(lines, first, last)
    ensures WellPlaced(haystack, m) && m.strategy == Anchored
  {
    var s, e := SpanMatchIs(lines, AnchorSpan(Keys(lines), first, last), m);
    WindowWellPlaced(haystack, lines, e - s + 1, s, Anchored, None);
  }

  lemma SpanMatchIs(lines: seq<Line>, span: Option<(nat, nat)>, m: RawMatch) returns (s: nat, e: nat)
    requires span.Some? ==> span.value.0 < span.value.1 < |lines|
    requires m in SpanMatch(lines, span)
    ensures span == Some((s, e)) && s < e < |lines| && m == WindowAt(lines, e - s + 1, s, Anchored, None)
  {
    s, e := span.value.0, span.value.1;
  }
}
