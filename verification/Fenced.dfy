/** The fenced format of edits: printing and parsing (bench/harness/src/polyglot.ts). */
module Fenced {
  import opened Text

  const FENCE_OPEN := "```edit"
  const FENCE_CLOSE := "```"
  const SEARCH_MARKER := "---search---"
  const REPLACE_MARKER := "---replace---"
  const END_MARKER := "---end---"
  const FORBIDDEN := [FENCE_OPEN, FENCE_CLOSE, SEARCH_MARKER, REPLACE_MARKER, END_MARKER]

  datatype Edit = Edit(search: string, replace: string)

  datatype RenderError = NoPath | NoEdits | MarkerLine(edit: nat, marker: string)
  datatype Rendered = Text(text: string) | NotRendered(error: RenderError)

  datatype ParseError =
    | ExpectedFence | MissingPath | ExpectedSearch | SearchUnterminated | ReplaceUnterminated | ExpectedClose | TrailingContent
  datatype Parsed = Block(path: string, edit: Edit) | NotParsed(error: ParseError)

  // ----- printing -----

  predicate HasLine(text: string, line: string) {
    line in Split(text, '\n')
  }

  predicate HoldsLine(edit: Edit, line: string) {
    HasLine(edit.search, line) || HasLine(edit.replace, line)
  }

  /** The first of the first `n` markers that is a line of the edit. */
  function MarkerIn(edit: Edit, markers: seq<string>, n: nat): Option<string>
    requires n <= |markers|
  {
    if n == 0 then None
    else match MarkerIn(edit, markers, n - 1)
      case Some(m) => Some(m)
      case None => if HoldsLine(edit, markers[n - 1]) then Some(markers[n - 1]) else None
  }

  function Problem(edits: seq<Edit>, n: nat): Option<RenderError>
    requires n <= |edits|
  {
    if n == 0 then None
    else match Problem(edits, n - 1)
      case Some(e) => Some(e)
      case None =>
        match MarkerIn(edits[n - 1], FORBIDDEN, |FORBIDDEN|)
        case Some(m) => Some(MarkerLine(n, m))
        case None => None
  }

  /** The lines of an edit, between its search marker and its closing fence. */
  function BodyParts(m1: string, edit: Edit, m2: string, m3: string, m4: string): seq<string> {
    [m1] + ([edit.search] + ([m2] + ([edit.replace] + ([m3] + ([m4] + [])))))
  }

  function BlockParts(path: string, edit: Edit): seq<string> {
    [FENCE_OPEN + " " + path] + BodyParts(SEARCH_MARKER, edit, REPLACE_MARKER, END_MARKER, FENCE_CLOSE)
  }

  function Parts(path: string, edits: seq<Edit>): seq<string> {
    if edits == [] then [] else Parts(path, edits[..|edits| - 1]) + BlockParts(path, edits[|edits| - 1])
  }

  function Render(path: string, edits: seq<Edit>): Rendered {
    if path == "" then NotRendered(NoPath)
    else if edits == [] then NotRendered(NoEdits)
    else match Problem(edits, |edits|)
      case Some(e) => NotRendered(e)
      case None => Text(Join(Parts(path, edits), "\n") + "\n")
  }

  method RenderFencedEdits(path: string, edits: seq<Edit>) returns (r: Rendered)
    ensures r == Render(path, edits)
  {
    if |path| == 0 {
      return NotRendered(NoPath);
    }
    if |edits| == 0 {
      return NotRendered(NoEdits);
    }
    for index := 0 to |edits|
      invariant Problem(edits, index).None?
    {
      for k := 0 to |FORBIDDEN|
        invariant MarkerIn(edits[index], FORBIDDEN, k).None?
      {
        if HoldsLine(edits[index], FORBIDDEN[k]) {
          MarkerStays(edits[index], FORBIDDEN, k + 1);
          ProblemStays(edits, index + 1);
          return NotRendered(MarkerLine(index + 1, FORBIDDEN[k]));
        }
      }
    }
    var parts: seq<string> := [];
    for index := 0 to |edits|
      invariant parts == Parts(path, edits[..index])
    {
      assert edits[..index + 1][..index] == edits[..index];
      parts := parts + BlockParts(path, edits[index]);
    }
    assert edits[..|edits|] == edits;
    r := Text(Join(parts, "\n") + "\n");
  }

  lemma {:induction false} MarkerStays(edit: Edit, markers: seq<string>, n: nat)
    requires n <= |markers| && MarkerIn(edit, markers, n).Some?
    ensures MarkerIn(edit, markers, |markers|) == MarkerIn(edit, markers, n)
    decreases |markers| - n
  {
    if n < |markers| {
      MarkerStays(edit, markers, n + 1);
    }
  }

  lemma {:induction false} ProblemStays(edits: seq<Edit>, n: nat)
    requires n <= |edits| && Problem(edits, n).Some?
    ensures Problem(edits, |edits|) == Problem(edits, n)
    decreases |edits| - n
  {
    if n < |edits| {
      ProblemStays(edits, n + 1);
    }
  }

  // ----- parsing -----

  /** The first line from `i` on that is not blank, or the number of lines. */
  function SkipBlank(lines: seq<string>, i: nat): (r: nat)
    requires i <= |lines|
    ensures i <= r <= |lines|
    decreases |lines| - i
  {
    if i < |lines| && Trim(lines[i]) == "" then SkipBlank(lines, i + 1) else i
  }

  /** The first line from `i` on that is `marker`, or the number of lines. */
  function FindLine(lines: seq<string>, marker: string, i: nat): (r: nat)
    requires i <= |lines|
    ensures i <= r <= |lines|
    decreases |lines| - i
  {
    if i < |lines| && lines[i] != marker then FindLine(lines, marker, i + 1) else i
  }

  predicate LineIs(lines: seq<string>, i: nat, marker: string) {
    i < |lines| && lines[i] == marker
  }

  /** The replacement text from line `from` on, and what must close the block. */
  function ParseReplace(path: string, search: string, lines: seq<string>, from: nat): Parsed
    requires from <= |lines|
  {
    var e := FindLine(lines, END_MARKER, from);
    if e == |lines| then NotParsed(ReplaceUnterminated)
    else if !LineIs(lines, e + 1, FENCE_CLOSE) then NotParsed(ExpectedClose)
    else if SkipBlank(lines, e + 2) < |lines| then NotParsed(TrailingContent)
    else Block(path, Edit(search, Join(lines[from..e], "\n")))
  }

  /** The search marker at line `at` and the search text behind it. */
  function ParseSearch(path: string, lines: seq<string>, at: nat): Parsed {
    if !LineIs(lines, at, SEARCH_MARKER) then NotParsed(ExpectedSearch)
    else
      var r := FindLine(lines, REPLACE_MARKER, at + 1);
      if r == |lines| then NotParsed(SearchUnterminated)
      else ParseReplace(path, Join(lines[at + 1..r], "\n"), lines, r + 1)
  }

  function ParseLines(lines: seq<string>): Parsed {
    ParseFenced(FENCE_OPEN, lines)
  }

  /** A block behind blank lines that opens with this fence. */
  function ParseFenced(fence: string, lines: seq<string>): Parsed {
    ParseOpened(fence, OpenLine(lines), lines, SkipBlank(lines, 0) + 1)
  }

  /** The first line that is not blank. */
  function OpenLine(lines: seq<string>): string {
    var i := SkipBlank(lines, 0);
    if i < |lines| then lines[i] else ""
  }

  /** A block whose first line is `open`, and whose others begin at line `at`. */
  function ParseOpened(fence: string, open: string, lines: seq<string>, at: nat): Parsed {
    if !(fence <= open) then NotParsed(ExpectedFence) else ParseFor(Trim(open[|fence|..]), lines, at)
  }

  /** The edit for a path, from line `at` on. */
  function ParseFor(path: string, lines: seq<string>, at: nat): Parsed {
    if path == "" then NotParsed(MissingPath) else ParseSearch(path, lines, at)
  }

  method SkipBlankLines(lines: seq<string>, from: nat) returns (i: nat)
    requires from <= |lines|
    ensures i == SkipBlank(lines, from)
  {
    i := from;
    while i < |lines| && Trim(lines[i]) == ""
      invariant from <= i <= |lines| && SkipBlank(lines, from) == SkipBlank(lines, i)
    {
      i := i + 1;
    }
  }

  method TakeLines(lines: seq<string>, marker: string, from: nat) returns (taken: seq<string>, i: nat)
    requires from <= |lines|
    ensures i == FindLine(lines, marker, from) && taken == lines[from..i]
  {
    taken, i := [], from;
    while i < |lines| && lines[i] != marker
      invariant from <= i <= |lines| && FindLine(lines, marker, from) == FindLine(lines, marker, i)
      invariant taken == lines[from..i]
    {
      taken := taken + [lines[i]];
      i := i + 1;
    }
  }

  method ParseFencedEdits(raw: string) returns (p: Parsed)
    ensures p == ParseLines(Split(raw, '\n'))
  {
    var lines := Split(raw, '\n');
    var i := SkipBlankLines(lines, 0);
    var open := if i < |lines| then lines[i] else "";
    if !(FENCE_OPEN <= open) {
      return NotParsed(ExpectedFence);
    }
    var path := Trim(open[|FENCE_OPEN|..]);
    if |path| == 0 {
      return NotParsed(MissingPath);
    }
    p := ParseBody(path, lines, i + 1);
  }

  method ParseBody(path: string, lines: seq<string>, start: nat) returns (p: Parsed)
    ensures p == ParseSearch(path, lines, start)
  {
    var i := start;
    if !(i < |lines| && lines[i] == SEARCH_MARKER) {
      return NotParsed(ExpectedSearch);
    }
    i := i + 1;
    var searchLines, replaceLines;
    searchLines, i := TakeLines(lines, REPLACE_MARKER, i);
    if i >= |lines| {
      return NotParsed(SearchUnterminated);
    }
    i := i + 1;
    replaceLines, i := TakeLines(lines, END_MARKER, i);
    if i >= |lines| {
      return NotParsed(ReplaceUnterminated);
    }
    i := i + 1;
    if !(i < |lines| && lines[i] == FENCE_CLOSE) {
      return NotParsed(ExpectedClose);
    }
    i := SkipBlankLines(lines, i + 1);
    if i < |lines| {
      return NotParsed(TrailingContent);
    }
    p := Block(path, Edit(Join(searchLines, "\n"), Join(replaceLines, "\n")));
  }

  // ----- what is printed -----

  predicate NoMarker(edit: Edit) {
    forall m <- FORBIDDEN :: !HoldsLine(edit, m)
  }

  lemma {:induction false} MarkerInIs(edit: Edit, markers: seq<string>, n: nat)
    requires n <= |markers|
    ensures MarkerIn(edit, markers, n).None? <==> forall m <- markers[..n] :: !HoldsLine(edit, m)
  {
    if n > 0 {
      MarkerInIs(edit, markers, n - 1);
      assert markers[..n] == markers[..n - 1] + [markers[n - 1]];
    }
  }

  lemma {:induction false} ProblemIs(edits: seq<Edit>, n: nat)
    requires n <= |edits|
    ensures Problem(edits, n).None? <==> forall i :: 0 <= i < n ==> MarkerIn(edits[i], FORBIDDEN, |FORBIDDEN|).None?
  {
    if n > 0 {
      ProblemIs(edits, n - 1);
    }
  }

  lemma NoMarkerIs(edit: Edit)
    ensures MarkerIn(edit, FORBIDDEN, |FORBIDDEN|).None? <==> NoMarker(edit)
  {
    MarkerInIs(edit, FORBIDDEN, |FORBIDDEN|);
    assert FORBIDDEN[..|FORBIDDEN|] == FORBIDDEN;
  }

  /** The printer accepts exactly a path and edits of which none holds a marker line. */
  lemma RenderAccepts(path: string, edits: seq<Edit>)
    ensures Render(path, edits).Text? <==> path != "" && edits != [] && forall edit <- edits :: NoMarker(edit)
  {
    ProblemIs(edits, |edits|);
    forall i | 0 <= i < |edits| ensures MarkerIn(edits[i], FORBIDDEN, |FORBIDDEN|).None? <==> NoMarker(edits[i]) {
      NoMarkerIs(edits[i]);
    }
  }

  // ----- printing as lines -----

  /** Splitting at newlines, piece after piece. */
  lemma {:induction false} SplitAppend(a: string, b: string)
    ensures Split(a + ("\n" + b), '\n') == Split(a, '\n') + Split(b, '\n')
    decreases |a|
  {
    var k := FirstIndex(a, '\n');
    FirstIndexFirst(a, '\n');
    var s := a + ("\n" + b);
    if k == |a| {
      TakeDrop(a, k);
      ThreeParts(a, "\n", b);
      assert s[k] == '\n';
      SplitStep(s, '\n', k);
    } else {
      TailAppended(a, "\n" + b, k);
      SplitStep(s, '\n', k);
      SplitAppend(a[k + 1..], b);
      Regroup([a[..k]], Split(a[k + 1..], '\n'), Split(b, '\n'));
    }
  }

  lemma TailAppended(a: string, b: string, k: nat)
    requires k < |a|
    ensures (a + b)[..k] == a[..k] && (a + b)[k] == a[k] && (a + b)[k + 1..] == a[k + 1..] + b
  {}

  /** The lines of all parts, followed by others. */
  function AllLines(parts: seq<string>, more: seq<string>): seq<string> {
    if parts == [] then more else Split(parts[0], '\n') + AllLines(parts[1..], more)
  }

  lemma {:induction false} SplitParts(parts: seq<string>)
    requires parts != []
    ensures Split(Join(parts, "\n") + "\n", '\n') == AllLines(parts, [""])
  {
    var first := parts[0];
    if |parts| == 1 {
      SplitAppend(first, "");
      assert first + ("\n" + "") == first + "\n";
    } else {
      var others := Join(parts[1..], "\n");
      SplitParts(parts[1..]);
      SplitAppend(first, others + "\n");
      Regrouped(first, others);
    }
  }

  lemma Regrouped(first: string, others: string)
    ensures (first + ("\n" + others)) + "\n" == first + ("\n" + (others + "\n"))
  {}

  lemma {:induction false} AllLinesAppend(a: seq<string>, b: seq<string>, more: seq<string>)
    ensures AllLines(a + b, more) == AllLines(a, AllLines(b, more))
  {
    if a == [] {
      assert a + b == b;
    } else {
      AllLinesAppend(a[1..], b, more);
      assert (a + b)[1..] == a[1..] + b;
    }
  }

  function Several(m1: string, s: seq<string>, m2: string, t: seq<string>, m3: string, m4: string, more: seq<string>): seq<string> {
    [m1] + (s + ([m2] + (t + ([m3] + ([m4] + more)))))
  }

  /** The lines of one block, followed by others. */
  function BlockLines(path: string, edit: Edit, more: seq<string>): seq<string> {
    [FENCE_OPEN + " " + path] + Several(SEARCH_MARKER, Split(edit.search, '\n'), REPLACE_MARKER, Split(edit.replace, '\n'), END_MARKER, FENCE_CLOSE, more)
  }

  /** The printed text of the first `n` edits, as lines. */
  function EditLines(path: string, edits: seq<Edit>, more: seq<string>): seq<string> {
    if edits == [] then more else EditLines(path, edits[..|edits| - 1], BlockLines(path, edits[|edits| - 1], more))
  }

  lemma OneLine(line: string, parts: seq<string>, more: seq<string>)
    requires '\n' !in line
    ensures AllLines([line] + parts, more) == [line] + AllLines(parts, more)
  {
    SplitNone(line, '\n');
    DropPrefix([line], parts);
  }

  lemma SomeLines(text: string, parts: seq<string>, more: seq<string>)
    ensures AllLines([text] + parts, more) == Split(text, '\n') + AllLines(parts, more)
  {
    DropPrefix([text], parts);
  }

  lemma BodyLines(m1: string, edit: Edit, m2: string, m3: string, m4: string, more: seq<string>)
    requires '\n' !in m1 && '\n' !in m2 && '\n' !in m3 && '\n' !in m4
    ensures AllLines(BodyParts(m1, edit, m2, m3, m4), more)
         == Several(m1, Split(edit.search, '\n'), m2, Split(edit.replace, '\n'), m3, m4, more)
  {
    OneLine(m4, [], more);
    OneLine(m3, [m4] + [], more);
    SomeLines(edit.replace, [m3] + ([m4] + []), more);
    OneLine(m2, [edit.replace] + ([m3] + ([m4] + [])), more);
    SomeLines(edit.search, [m2] + ([edit.replace] + ([m3] + ([m4] + []))), more);
    OneLine(m1, [edit.search] + ([m2] + ([edit.replace] + ([m3] + ([m4] + [])))), more);
  }

  lemma BlockPartsLines(path: string, edit: Edit, more: seq<string>)
    requires '\n' !in path
    ensures AllLines(BlockParts(path, edit), more) == BlockLines(path, edit, more)
  {
    BodyLines(SEARCH_MARKER, edit, REPLACE_MARKER, END_MARKER, FENCE_CLOSE, more);
    OpenBlock(path, BodyParts(SEARCH_MARKER, edit, REPLACE_MARKER, END_MARKER, FENCE_CLOSE), more);
  }

  lemma OpenBlock(path: string, body: seq<string>, more: seq<string>)
    requires '\n' !in path
    ensures AllLines([FENCE_OPEN + " " + path] + body, more) == [FENCE_OPEN + " " + path] + AllLines(body, more)
  {
    OneLine(FENCE_OPEN + " " + path, body, more);
  }

  lemma {:induction false} PartsLines(path: string, edits: seq<Edit>, more: seq<string>)
    requires '\n' !in path
    ensures AllLines(Parts(path, edits), more) == EditLines(path, edits, more)
  {
    if edits != [] {
      var n := |edits| - 1;
      AllLinesAppend(Parts(path, edits[..n]), BlockParts(path, edits[n]), more);
      BlockPartsLines(path, edits[n], more);
      PartsLines(path, edits[..n], BlockLines(path, edits[n], more));
    }
  }

  // ----- parsing the lines of a block -----

  lemma {:induction false} FindLineIs(lines: seq<string>, marker: string, i: nat, r: nat)
    requires i <= r < |lines| && lines[r] == marker && forall k :: i <= k < r ==> lines[k] != marker
    ensures FindLine(lines, marker, i) == r
    decreases r - i
  {
    if i < r {
      FindLineIs(lines, marker, i + 1, r);
    }
  }

  lemma TrimmedEnds(s: string)
    ensures Trim(s) == s && s != "" ==> !IsSpace(s[0]) && !IsSpace(s[|s| - 1])
  {
    TrimEndIs(s);
    TrimStartIs(TrimEnd(s));
  }

  lemma TrimKeeps(s: string)
    requires s != "" && !IsSpace(s[0]) && !IsSpace(s[|s| - 1])
    ensures Trim(s) == s && Trim(" " + s) == s
  {
    assert (" " + s)[|s|] == s[|s| - 1];
    assert TrimEnd(" " + s) == " " + s;
    DropPrefix(" ", s);
  }

  lemma OpenWith(fence: string, path: string)
    requires path != "" && Trim(path) == path
    requires fence != "" && !IsSpace(fence[0])
    ensures var open := fence + " " + path;
            fence <= open && Trim(open) != "" && Trim(open[|fence|..]) == path
  {
    var open := fence + " " + path;
    TrimmedEnds(path);
    TrimKeeps(path);
    assert open[|open| - 1] == path[|path| - 1] && open[0] == fence[0];
    TrimKeeps(open);
    assert open == fence + (" " + path);
    DropPrefix(fence, " " + path);
  }

  /** Where the parts of a block stand among its lines. */
  predicate Placed(lines: seq<string>, m1: string, s: seq<string>, m2: string, t: seq<string>, m3: string, m4: string, more: seq<string>) {
    var r, e := 2 + |s|, 3 + |s| + |t|;
    && |lines| == e + 2 + |more|
    && lines[1] == m1 && lines[r] == m2 && lines[e] == m3 && lines[e + 1] == m4
    && lines[2..r] == s && lines[r + 1..e] == t && lines[e + 2..] == more
  }

  lemma BlockAt(open: string, m1: string, s: seq<string>, m2: string, t: seq<string>, m3: string, m4: string, more: seq<string>)
    ensures Placed([open] + Several(m1, s, m2, t, m3, m4, more), m1, s, m2, t, m3, m4, more)
  {}

  lemma {:induction false} SkipBlankDrop(lines: seq<string>, k: nat, j: nat)
    requires k + j <= |lines|
    ensures SkipBlank(lines, k + j) == k + SkipBlank(lines[k..], j)
    decreases |lines| - j
  {
    if k + j < |lines| && Trim(lines[k + j]) == "" {
      SkipBlankDrop(lines, k, j + 1);
    }
  }

  lemma FindPart(lines: seq<string>, marker: string, i: nat, r: nat, part: seq<string>)
    requires i <= r < |lines| && lines[i..r] == part && marker !in part && lines[r] == marker
    ensures FindLine(lines, marker, i) == r
  {
    forall k | i <= k < r ensures lines[k] != marker {
      assert lines[k] == part[k - i];
    }
    FindLineIs(lines, marker, i, r);
  }

  lemma SkipBlankRest(lines: seq<string>, k: nat, more: seq<string>)
    requires k <= |lines| && lines[k..] == more
    ensures SkipBlank(lines, k) == k + SkipBlank(more, 0)
  {
    SkipBlankDrop(lines, k, 0);
  }

  function Closed(path: string, edit: Edit, more: seq<string>): Parsed {
    if SkipBlank(more, 0) < |more| then NotParsed(TrailingContent) else Block(path, edit)
  }

  lemma ClosedAt(path: string, search: string, lines: seq<string>, from: nat, e: nat, t: seq<string>, more: seq<string>)
    requires from <= |lines| && FindLine(lines, END_MARKER, from) == e
    requires from <= e && e + 2 <= |lines| && lines[from..e] == t && LineIs(lines, e + 1, FENCE_CLOSE)
    requires |lines| == e + 2 + |more| && SkipBlank(lines, e + 2) == e + 2 + SkipBlank(more, 0)
    ensures ParseReplace(path, search, lines, from) == Closed(path, Edit(search, Join(t, "\n")), more)
  {}

  lemma SearchParsed(path: string, lines: seq<string>, s: seq<string>, r: nat)
    requires 2 <= r < |lines| && lines[2..r] == s && FindLine(lines, REPLACE_MARKER, 2) == r && LineIs(lines, 1, SEARCH_MARKER)
    ensures ParseSearch(path, lines, 1) == ParseReplace(path, Join(s, "\n"), lines, r + 1)
  {}

  lemma BodyParsed(path: string, lines: seq<string>, edit: Edit, s: seq<string>, t: seq<string>, more: seq<string>)
    requires REPLACE_MARKER !in s && END_MARKER !in t
    requires Join(s, "\n") == edit.search && Join(t, "\n") == edit.replace
    requires Placed(lines, SEARCH_MARKER, s, REPLACE_MARKER, t, END_MARKER, FENCE_CLOSE, more)
    ensures ParseSearch(path, lines, 1) == Closed(path, edit, more)
  {
    var r, e := 2 + |s|, 3 + |s| + |t|;
    FindPart(lines, REPLACE_MARKER, 2, r, s);
    FindPart(lines, END_MARKER, r + 1, e, t);
    SkipBlankRest(lines, e + 2, more);
    SearchParsed(path, lines, s, r);
    ClosedAt(path, edit.search, lines, r + 1, e, t, more);
  }

  lemma Unmarked(edit: Edit)
    requires NoMarker(edit)
    ensures REPLACE_MARKER !in Split(edit.search, '\n') && END_MARKER !in Split(edit.replace, '\n')
  {
    assert FORBIDDEN[3] == REPLACE_MARKER && FORBIDDEN[4] == END_MARKER;
    assert REPLACE_MARKER in FORBIDDEN && END_MARKER in FORBIDDEN;
  }

  /** What the parser makes of a block and the lines behind it. */
  lemma ParseBlock(path: string, edit: Edit, more: seq<string>)
    requires path != "" && Trim(path) == path && NoMarker(edit)
    ensures ParseLines(BlockLines(path, edit, more)) == Closed(path, edit, more)
  {
    OpensBlock(path, edit, more);
    Unmarked(edit);
    JoinSplit(edit.search, '\n');
    JoinSplit(edit.replace, '\n');
    var s, t := Split(edit.search, '\n'), Split(edit.replace, '\n');
    BlockAt(FENCE_OPEN + " " + path, SEARCH_MARKER, s, REPLACE_MARKER, t, END_MARKER, FENCE_CLOSE, more);
    BodyParsed(path, BlockLines(path, edit, more), edit, s, t, more);
  }

  lemma OpensBlock(path: string, edit: Edit, more: seq<string>)
    requires path != "" && Trim(path) == path
    ensures var lines := BlockLines(path, edit, more);
            lines != [] && SkipBlank(lines, 0) == 0 && ParseLines(lines) == ParseSearch(path, lines, 1)
  {
    OpenWith(FENCE_OPEN, path);
    OpensWith(path, FENCE_OPEN + " " + path, Several(SEARCH_MARKER, Split(edit.search, '\n'), REPLACE_MARKER, Split(edit.replace, '\n'), END_MARKER, FENCE_CLOSE, more));
  }

  lemma OpensWith(path: string, open: string, body: seq<string>)
    requires path != "" && FENCE_OPEN <= open && Trim(open) != "" && Trim(open[|FENCE_OPEN|..]) == path
    ensures var lines := [open] + body;
            SkipBlank(lines, 0) == 0 && ParseLines(lines) == ParseSearch(path, lines, 1)
  {
    OpenedBy(path, open, [open] + body);
  }

  lemma OpenedBy(path: string, open: string, lines: seq<string>)
    requires path != "" && FENCE_OPEN <= open && Trim(open) != "" && Trim(open[|FENCE_OPEN|..]) == path
    requires lines != [] && lines[0] == open
    ensures SkipBlank(lines, 0) == 0 && ParseLines(lines) == ParseSearch(path, lines, 1)
  {
    SkipsNone(lines);
    OpenLineIs(lines, 0);
    ParsesPath(path, open, lines, 0);
  }

  lemma SkipsNone(lines: seq<string>)
    requires lines != [] && Trim(lines[0]) != ""
    ensures SkipBlank(lines, 0) == 0
  {}

  lemma ParsesPath(path: string, open: string, lines: seq<string>, i: nat)
    requires SkipBlank(lines, 0) == i && OpenLine(lines) == open && FENCE_OPEN <= open
    requires path != "" && Trim(open[|FENCE_OPEN|..]) == path
    ensures ParseLines(lines) == ParseSearch(path, lines, i + 1)
  {
    FencedPath(FENCE_OPEN, open, path, lines, i);
  }

  lemma OpenLineIs(lines: seq<string>, i: nat)
    requires SkipBlank(lines, 0) == i && i < |lines|
    ensures OpenLine(lines) == lines[i]
  {}

  lemma FencedPath(fence: string, open: string, path: string, lines: seq<string>, i: nat)
    requires SkipBlank(lines, 0) == i && OpenLine(lines) == open
    requires fence <= open && Trim(open[|fence|..]) == path && path != ""
    ensures ParseFenced(fence, lines) == ParseSearch(path, lines, i + 1)
  {
    PathRead(fence, open, path, lines, i + 1);
  }

  lemma PathRead(fence: string, open: string, path: string, lines: seq<string>, at: nat)
    requires fence <= open && Trim(open[|fence|..]) == path && path != ""
    ensures ParseOpened(fence, open, lines, at) == ParseSearch(path, lines, at)
  {}

  /** The lines of one edit or more start with a block of the first. */
  lemma {:induction false} FirstBlock(path: string, edits: seq<Edit>, more: seq<string>) returns (others: seq<string>)
    requires edits != [] && path != "" && Trim(path) == path && forall edit <- edits :: NoMarker(edit)
    ensures EditLines(path, edits, more) == BlockLines(path, edits[0], others)
    ensures if |edits| == 1 then others == more else SkipBlank(others, 0) < |others|
  {
    var n := |edits| - 1;
    if n == 0 {
      others := more;
    } else {
      var last := BlockLines(path, edits[n], more);
      OpensBlock(path, edits[n], more);
      others := FirstBlock(path, edits[..n], last);
    }
  }

  /** Printing and parsing back: one edit comes back as it was, several are refused. */
  lemma RoundTrip(path: string, edits: seq<Edit>)
    requires Trim(path) == path && '\n' !in path && Render(path, edits).Text?
    ensures ParseLines(Split(Render(path, edits).text, '\n'))
         == if |edits| == 1 then Block(path, edits[0]) else NotParsed(TrailingContent)
  {
    RenderAccepts(path, edits);
    PartsLines(path, edits, [""]);
    SplitParts(Parts(path, edits));
    var others := FirstBlock(path, edits, [""]);
    ParseBlock(path, edits[0], others);
  }

  // ----- what is parsed -----

  predicate AllBlank(lines: seq<string>, from: int, to: int) {
    forall k :: 0 <= from <= k < to <= |lines| ==> Trim(lines[k]) == ""
  }

  predicate NoneIs(lines: seq<string>, marker: string, from: int, to: int) {
    forall k :: 0 <= from <= k < to <= |lines| ==> lines[k] != marker
  }

  /** Behind blank lines, line `i` opens a block for the path. */
  predicate OpensAt(lines: seq<string>, path: string, i: int) {
    0 <= i < |lines| && AllBlank(lines, 0, i) && Trim(lines[i]) != "" && FENCE_OPEN <= lines[i] && Trim(lines[i][|FENCE_OPEN|..]) == path != ""
  }

  /** Behind the search marker at line `at`, the search text ends at the first replace marker, the replacement at the first
      end marker, the fence is closed next, and only blank lines follow. */
  predicate HasBody(lines: seq<string>, edit: Edit, at: int, r: int, e: int) {
    && 0 <= at && at + 1 <= r < e && e + 1 < |lines|
    && lines[at] == SEARCH_MARKER && lines[r] == REPLACE_MARKER && lines[e] == END_MARKER && lines[e + 1] == FENCE_CLOSE
    && NoneIs(lines, REPLACE_MARKER, at + 1, r) && NoneIs(lines, END_MARKER, r + 1, e) && AllBlank(lines, e + 2, |lines|)
    && edit == Edit(Join(lines[at + 1..r], "\n"), Join(lines[r + 1..e], "\n"))
  }

  predicate IsBlock(lines: seq<string>, path: string, edit: Edit, i: int, r: int, e: int) {
    OpensAt(lines, path, i) && HasBody(lines, edit, i + 1, r, e)
  }

  lemma {:induction false} SkipBlankIs(lines: seq<string>, i: nat, r: nat)
    requires i <= |lines|
    ensures r == SkipBlank(lines, i) <==> i <= r <= |lines| && AllBlank(lines, i, r) && (r < |lines| ==> Trim(lines[r]) != "")
    decreases |lines| - i
  {
    if i < |lines| && Trim(lines[i]) == "" {
      SkipBlankIs(lines, i + 1, r);
    }
  }

  lemma {:induction false} FoundLineIs(lines: seq<string>, marker: string, i: nat, r: nat)
    requires i <= |lines|
    ensures r == FindLine(lines, marker, i) <==> i <= r <= |lines| && NoneIs(lines, marker, i, r) && (r < |lines| ==> lines[r] == marker)
    decreases |lines| - i
  {
    if i < |lines| && lines[i] != marker {
      FoundLineIs(lines, marker, i + 1, r);
    }
  }

  /** The parse from the search marker at line `at`. */
  predicate IsBody(lines: seq<string>, at: int, r: int, e: int) {
    && 0 <= at && at + 1 <= r < e && e + 1 < |lines|
    && lines[at] == SEARCH_MARKER && FindLine(lines, REPLACE_MARKER, at + 1) == r && FindLine(lines, END_MARKER, r + 1) == e
    && lines[e + 1] == FENCE_CLOSE && SkipBlank(lines, e + 2) == |lines|
  }

  lemma ReplaceIff(path: string, search: string, lines: seq<string>, from: nat, edit: Edit)
    requires from <= |lines|
    ensures var e := FindLine(lines, END_MARKER, from);
            ParseReplace(path, search, lines, from) == Block(path, edit)
            <==> e + 1 < |lines| && lines[e + 1] == FENCE_CLOSE && SkipBlank(lines, e + 2) == |lines|
                 && edit == Edit(search, Join(lines[from..e], "\n"))
  {}

  lemma BodyIff(path: string, lines: seq<string>, at: nat, edit: Edit)
    ensures ParseSearch(path, lines, at) == Block(path, edit)
       <==> at < |lines| &&
            var r := FindLine(lines, REPLACE_MARKER, at + 1);
            r < |lines| &&
            var e := FindLine(lines, END_MARKER, r + 1);
            IsBody(lines, at, r, e) && edit == Edit(Join(lines[at + 1..r], "\n"), Join(lines[r + 1..e], "\n"))
  {
    if LineIs(lines, at, SEARCH_MARKER) && FindLine(lines, REPLACE_MARKER, at + 1) < |lines| {
      var r := FindLine(lines, REPLACE_MARKER, at + 1);
      ReplaceIff(path, Join(lines[at + 1..r], "\n"), lines, r + 1, edit);
    }
  }

  lemma BodyPlaces(lines: seq<string>, at: int, r: int, e: int)
    ensures IsBody(lines, at, r, e)
       <==> && 0 <= at && at + 1 <= r < e && e + 1 < |lines|
            && lines[at] == SEARCH_MARKER && lines[r] == REPLACE_MARKER && lines[e] == END_MARKER && lines[e + 1] == FENCE_CLOSE
            && NoneIs(lines, REPLACE_MARKER, at + 1, r) && NoneIs(lines, END_MARKER, r + 1, e) && AllBlank(lines, e + 2, |lines|)
  {
    if 0 <= at && at + 1 <= r < e && e + 1 < |lines| {
      FoundLineIs(lines, REPLACE_MARKER, at + 1, r);
      FoundLineIs(lines, END_MARKER, r + 1, e);
      SkipBlankIs(lines, e + 2, |lines|);
    }
  }

  lemma BodyIsParsed(path: string, lines: seq<string>, edit: Edit, at: nat, r: int, e: int)
    requires HasBody(lines, edit, at, r, e)
    ensures ParseSearch(path, lines, at) == Block(path, edit)
  {
    BodyPlaces(lines, at, r, e);
    BodyIff(path, lines, at, edit);
  }

  lemma ParsedHasBody(path: string, lines: seq<string>, edit: Edit, at: nat) returns (r: int, e: int)
    requires ParseSearch(path, lines, at) == Block(path, edit)
    ensures HasBody(lines, edit, at, r, e)
  {
    BodyIff(path, lines, at, edit);
    r := FindLine(lines, REPLACE_MARKER, at + 1);
    e := FindLine(lines, END_MARKER, r + 1);
    BodyPlaces(lines, at, r, e);
  }

  lemma OpensIsParsed(lines: seq<string>, path: string, i: nat)
    requires OpensAt(lines, path, i)
    ensures ParseLines(lines) == ParseSearch(path, lines, i + 1)
  {
    SkipBlankIs(lines, 0, i);
    OpenLineIs(lines, i);
    ParsesPath(path, lines[i], lines, i);
  }

  lemma BodyFor(path: string, lines: seq<string>, at: nat)
    ensures ParseSearch(path, lines, at).Block? ==> ParseSearch(path, lines, at).path == path
  {}

  lemma OpenedIs(open: string, path: string, lines: seq<string>, at: nat)
    requires var p := ParseOpened(FENCE_OPEN, open, lines, at); p.Block? && p.path == path
    ensures FENCE_OPEN <= open && Trim(open[|FENCE_OPEN|..]) == path != ""
  {
    var given := Trim(open[|FENCE_OPEN|..]);
    PathRead(FENCE_OPEN, open, given, lines, at);
    BodyFor(given, lines, at);
  }

  lemma ParsedOpens(lines: seq<string>, path: string) returns (i: nat)
    requires ParseLines(lines).Block? && ParseLines(lines).path == path
    ensures OpensAt(lines, path, i)
  {
    i := SkipBlank(lines, 0);
    SkipBlankIs(lines, 0, i);
    OpenedIs(OpenLine(lines), path, lines, i + 1);
  }

  lemma ParsedIsBlock(lines: seq<string>, path: string, edit: Edit) returns (i: int, r: int, e: int)
    requires ParseLines(lines) == Block(path, edit)
    ensures IsBlock(lines, path, edit, i, r, e)
  {
    i := ParsedOpens(lines, path);
    OpensIsParsed(lines, path, i);
    r, e := ParsedHasBody(path, lines, edit, i + 1);
  }

  lemma BlockIsParsed(lines: seq<string>, path: string, edit: Edit, i: int, r: int, e: int)
    requires IsBlock(lines, path, edit, i, r, e)
    ensures ParseLines(lines) == Block(path, edit)
  {
    OpensIsParsed(lines, path, i);
    BodyIsParsed(path, lines, edit, i + 1, r, e);
  }

  /** The parser accepts exactly the lines of one block. */
  lemma ParsedIff(lines: seq<string>, path: string, edit: Edit)
    ensures ParseLines(lines) == Block(path, edit) <==> exists i, r, e :: IsBlock(lines, path, edit, i, r, e)
  {
    if ParseLines(lines) == Block(path, edit) {
      var i, r, e := ParsedIsBlock(lines, path, edit);
    }
    if i, r, e :| IsBlock(lines, path, edit, i, r, e) {
      BlockIsParsed(lines, path, edit, i, r, e);
    }
  }
}
