/** Which windows the indentation-tolerant search reports, against the uniform shifts it is meant to allow
    (packages/apply/src/match.ts). */
module Tolerance {
  import opened Text
  import opened Match
  import opened MatchFacts
  import opened Reindent

  // ----- finding a block that was re-indented -----

  predicate Indentation(s: string) {
    forall c <- s :: IsIndent(c)
  }

  /** Up to trailing white space, the file line `h` is the line `n` with the indentation `found` for `search`. */
  predicate ShiftedLine(h: string, n: string, shift: Indents) {
    if IsBlank(n) then IsBlank(h)
    else shift.search <= n && TrimEnd(h) == TrimEnd(shift.found + n[|shift.search|..])
  }

  /** So is every line of a window, with the same two indentations: all that differs is a shared prefix. */
  ghost predicate Shifted(window: seq<string>, n: seq<string>, shift: Indents) {
    && Indentation(shift.found) && Indentation(shift.search) && |n| == |window|
    && forall j :: 0 <= j < |n| ==> ShiftedLine(window[j], n[j], shift)
  }

  /** Some line is not blank, and none that is not is shallower than the first of them: each starts with its indentation. */
  predicate NoneShallower(window: seq<string>) {
    var a := FirstContent(window, 0);
    a < |window| && AllStart(window, LeadingWhitespace(window[a]))
  }

  /** Every line that is not blank starts with this indentation. */
  predicate AllStart(window: seq<string>, indent: string) {
    forall j :: 0 <= j < |window| ==> IsBlank(window[j]) || indent <= window[j]
  }

  lemma {:induction false} BlankAppend(s: string, t: string)
    requires forall c <- s :: IsIndent(c)
    ensures IsBlank(s + t) <==> IsBlank(t)
  {
    IsBlankIff(s + t);
    IsBlankIff(t);
    assert forall c <- s + t :: c in s || c in t;
    assert forall c <- t :: c in s + t;
  }

  lemma {:induction false} LeadingAppend(s: string, t: string)
    requires forall c <- s :: IsIndent(c)
    ensures LeadingWhitespace(s + t) == s + LeadingWhitespace(t)
  {
    if s == "" {
      assert s + t == t;
    } else {
      assert s[0] in s;
      assert forall c <- s[1..] :: c in s;
      LeadingAppend(s[1..], t);
      assert (s + t)[1..] == s[1..] + t;
      assert [s[0]] + (s[1..] + LeadingWhitespace(t)) == s + LeadingWhitespace(t);
    }
  }

  lemma {:induction false} TrimStartAppend(s: string, t: string)
    requires Indentation(s)
    ensures TrimStart(s + t) == TrimStart(t)
  {
    if s == "" {
      assert s + t == t;
    } else {
      assert s[0] in s;
      assert forall c <- s[1..] :: c in s;
      TrimStartAppend(s[1..], t);
      assert (s + t)[1..] == s[1..] + t;
    }
  }

  lemma NotBlankTrimmed(s: string)
    requires !IsBlank(s)
    ensures TrimEnd(s) != "" && TrimEnd(s) <= s && !IsSpace(TrimEnd(s)[|TrimEnd(s)| - 1])
  {
    TrimEndIs(s);
    IsBlankIff(s);
  }

  /** An indentation that a line starts with is not touched by trimming its end. */
  lemma TrimKeepsIndentation(s: string, f: string)
    requires !IsBlank(s) && Indentation(f)
    ensures f <= s <==> f <= TrimEnd(s)
  {
    NotBlankTrimmed(s);
    var k := |TrimEnd(s)| - 1;
    if f <= s {
      IndentationStops(s, f, k);
    }
  }

  lemma IndentationStops(s: string, f: string, k: nat)
    requires f <= s && Indentation(f) && k < |s| && !IsIndent(s[k])
    ensures |f| <= k
  {
    assert forall j :: 0 <= j < |f| ==> f[j] in f && s[j] == f[j];
  }

  lemma {:induction false} LeadingIs(s: string, f: string)
    requires Indentation(f) && f <= s && |f| < |s| && !IsIndent(s[|f|])
    ensures LeadingWhitespace(s) == f
  {
    LeadingAppend(f, s[|f|..]);
    PrefixRest(f, s);
    assert LeadingWhitespace(s[|f|..]) == "" && f + "" == f;
  }

  lemma LeadingTrimmed(s: string)
    requires !IsBlank(s)
    ensures LeadingWhitespace(TrimEnd(s)) == LeadingWhitespace(s)
  {
    var f, t := LeadingWhitespace(s), TrimEnd(s);
    LeadingWhitespaceIs(s);
    NotBlankTrimmed(s);
    TrimKeepsIndentation(s, f);
    assert f != "" ==> f[|f| - 1] in f;
    LeadingIs(t, f);
  }

  lemma SameTrimmedBlank(s: string, t: string)
    requires TrimEnd(s) == TrimEnd(t)
    ensures IsBlank(s) <==> IsBlank(t)
  {
    if IsBlank(s) {
      BlankTrimsToNothing(s);
    } else {
      NotBlankTrimmed(s);
    }
    if IsBlank(t) {
      BlankTrimsToNothing(t);
    } else {
      NotBlankTrimmed(t);
    }
  }

  /** What `n` and `h` have in common behind the two indentations. */
  lemma ShiftedRest(h: string, n: string, shift: Indents) returns (rest: string)
    requires Indentation(shift.found) && Indentation(shift.search) && ShiftedLine(h, n, shift) && !IsBlank(n)
    ensures n == shift.search + rest && TrimEnd(h) == TrimEnd(shift.found + rest)
    ensures !IsBlank(rest) && !IsBlank(h) && !IsBlank(shift.found + rest)
  {
    rest := n[|shift.search|..];
    PrefixRest(shift.search, n);
    BlankAppend(shift.search, rest);
    BlankAppend(shift.found, rest);
    SameTrimmedBlank(h, shift.found + rest);
  }

  lemma ShiftedBlank(h: string, n: string, shift: Indents)
    requires Indentation(shift.found) && Indentation(shift.search) && ShiftedLine(h, n, shift)
    ensures IsBlank(n) <==> IsBlank(h)
  {
    if !IsBlank(n) {
      var rest := ShiftedRest(h, n, shift);
    }
  }

  /** Behind the shared indentations both lines are indented alike. */
  lemma ShiftedLeading(h: string, n: string, shift: Indents) returns (more: string)
    requires Indentation(shift.found) && Indentation(shift.search) && ShiftedLine(h, n, shift) && !IsBlank(n)
    ensures Indentation(more)
    ensures LeadingWhitespace(h) == shift.found + more && LeadingWhitespace(n) == shift.search + more
  {
    var rest := ShiftedRest(h, n, shift);
    more := LeadingWhitespace(rest);
    LeadingWhitespaceIs(rest);
    LeadingTrimmed(h);
    LeadingTrimmed(shift.found + rest);
    LeadingAppend(shift.found, rest);
    LeadingAppend(shift.search, rest);
  }

  lemma PrefixBehind(s: string, a: string, b: string)
    ensures s + a <= s + b <==> a <= b
  {
    if s + a <= s + b {
      assert forall k :: 0 <= k < |a| ==> a[k] == (s + a)[|s| + k] == (s + b)[|s| + k] == b[k];
    }
    if a <= b {
      PrefixRest(a, b);
      Regroup(s, a, b[|a|..]);
    }
  }

  /** The two anchors, `found` and `search`, extend the shared indentations alike. */
  predicate Extends(indents: Indents, shift: Indents, more: string) {
    && Indentation(shift.found) && Indentation(shift.search) && Indentation(more)
    && indents.found == shift.found + more && indents.search == shift.search + more
  }

  lemma ExtendsIndented(indents: Indents, shift: Indents, more: string)
    requires Extends(indents, shift, more)
    ensures Indentation(indents.found) && Indentation(indents.search)
  {}

  /** The file line starts with its anchor's indentation exactly when the search line does. */
  lemma BothStart(h: string, n: string, shift: Indents, indents: Indents, more: string)
    requires Extends(indents, shift, more) && ShiftedLine(h, n, shift) && !IsBlank(n)
    ensures indents.found <= h <==> indents.search <= n
  {
    var rest := ShiftedRest(h, n, shift);
    ExtendsIndented(indents, shift, more);
    TrimKeepsIndentation(h, indents.found);
    TrimKeepsIndentation(shift.found + rest, indents.found);
    PrefixBehind(shift.found, more, rest);
    PrefixBehind(shift.search, more, rest);
  }

  /** Such a line fits exactly when it starts with its anchor's indentation. */
  lemma ShiftedLineFits(h: string, n: string, shift: Indents, indents: Indents, more: string)
    requires Extends(indents, shift, more) && ShiftedLine(h, n, shift)
    ensures IndentSame(h, n, indents) <==> IsBlank(h) || indents.found <= h
  {
    ShiftedBlank(h, n, shift);
    if !IsBlank(n) {
      BothStart(h, n, shift, indents, more);
      var rest := ShiftedRest(h, n, shift);
      if indents.search <= n {
        PrefixBehind(shift.search, more, rest);
        RebasedDeep(rest, shift, indents, more);
      } else {
        PrefixBehind(shift.search, more, rest);
        PrefixBehind(shift.found, more, rest);
        RebasedShallow(rest, shift, indents);
      }
    }
  }

  lemma RebasedDeep(rest: string, shift: Indents, indents: Indents, more: string)
    requires Extends(indents, shift, more) && more <= rest
    ensures indents.search <= shift.search + rest && Rebase(shift.search + rest, indents) == shift.found + rest
  {
    PrefixBehind(shift.search, more, rest);
    PrefixRest(more, rest);
    Regroup(shift.search, more, rest[|more|..]);
    DropPrefix(indents.search, rest[|more|..]);
    Regroup(shift.found, more, rest[|more|..]);
  }

  lemma RebasedShallow(rest: string, shift: Indents, indents: Indents)
    requires Indentation(shift.found) && Indentation(shift.search)
    requires !(indents.search <= shift.search + rest) && !(indents.found <= shift.found + rest) && !IsBlank(shift.found + rest)
    ensures TrimEnd(Rebase(shift.search + rest, indents)) != TrimEnd(shift.found + rest)
  {
    TrimStartAppend(shift.search, rest);
    TrimStartAppend(shift.found, rest);
    TrimmedPrefix(shift.found + rest, indents.found);
  }

  lemma {:induction false} SameAnchor(window: seq<string>, n: seq<string>, from: nat)
    requires |n| == |window| && from <= |n| && forall j :: 0 <= j < |n| ==> (IsBlank(n[j]) <==> IsBlank(window[j]))
    ensures FirstContent(n, from) == FirstContent(window, from)
    decreases |n| - from
  {
    if from < |n| && IsBlank(n[from]) {
      SameAnchor(window, n, from + 1);
    }
  }

  lemma ShiftedWindowFits(lines: seq<Line>, window: seq<string>, n: seq<string>, i: nat, shift: Indents, indents: Indents, more: string)
    returns (fits: bool)
    requires i + |n| <= |lines| && Shifted(window, n, shift) && Extends(indents, shift, more)
    requires forall j :: 0 <= j < |n| ==> window[j] == lines[i + j].text
    ensures fits <==> AllStart(window, indents.found)
    ensures fits <==> IndentWindow(lines, n, i, indents, 0)
  {
    fits := IndentWindow(lines, n, i, indents, 0);
    IndentWindowIff(lines, n, i, indents, 0);
    forall j | 0 <= j < |n| ensures IndentSame(lines[i + j].text, n[j], indents) <==> IsBlank(window[j]) || indents.found <= window[j] {
      ShiftedLineFits(window[j], n[j], shift, indents, more);
    }
    if IndentWindow(lines, n, i, indents, 0) {
      forall j | 0 <= j < |window| ensures IsBlank(window[j]) || indents.found <= window[j] {
        assert IndentSame(lines[i + j].text, n[j], indents);
      }
    }
  }

  lemma ShiftedSameAnchor(window: seq<string>, n: seq<string>, shift: Indents)
    requires Shifted(window, n, shift)
    ensures FirstContent(n, 0) == FirstContent(window, 0)
  {
    forall j | 0 <= j < |n| ensures IsBlank(n[j]) <==> IsBlank(window[j]) {
      ShiftedBlank(window[j], n[j], shift);
    }
    SameAnchor(window, n, 0);
  }

  /** The window at `i`. */
  function WindowTexts(lines: seq<Line>, i: nat, m: nat): (window: seq<string>)
    requires i + m <= |lines|
    ensures |window| == m && forall j :: 0 <= j < m ==> window[j] == lines[i + j].text
  {
    Texts(lines[i..i + m])
  }

  /** A window whose lines all share an indentation is found, with that replaced by another in the search block, if and
      only if none of its lines is shallower than its first one. The indentations found are then those of the first lines. */
  lemma ShiftedIsFoundIff(lines: seq<Line>, n: seq<string>, i: nat, shift: Indents)
    requires i + |n| <= |lines| && Shifted(WindowTexts(lines, i, |n|), n, shift)
    ensures var window := WindowTexts(lines, i, |n|);
            var a := FirstContent(window, 0);
            && (IndentFound(lines, n, i).Some? <==> NoneShallower(window))
            && (NoneShallower(window) ==>
                  IndentFound(lines, n, i)
                  == Some(WindowAt(lines, |n|, i, IndentationTolerant, Some(Indents(LeadingWhitespace(window[a]), LeadingWhitespace(n[a]))))))
  {
    var window := WindowTexts(lines, i, |n|);
    var a := FirstContent(window, 0);
    ShiftedSameAnchor(window, n, shift);
    if a < |n| {
      var found := AnchoredIsFoundIff(lines, window, n, i, a, shift, Indents(LeadingWhitespace(window[a]), LeadingWhitespace(n[a])));
    }
  }

  lemma AnchoredIsFoundIff(lines: seq<Line>, window: seq<string>, n: seq<string>, i: nat, a: nat, shift: Indents, indents: Indents)
    returns (found: bool)
    requires i + |n| <= |lines| && Shifted(window, n, shift) && forall j :: 0 <= j < |n| ==> window[j] == lines[i + j].text
    requires a == FirstContent(n, 0) && a < |n| && !IsBlank(window[a])
    requires indents == Indents(LeadingWhitespace(window[a]), LeadingWhitespace(n[a]))
    ensures found <==> AllStart(window, indents.found)
    ensures FoundWith(lines, n, i, indents, found)
  {
    var more := ShiftedLeading(window[a], n[a], shift);
    found := ShiftedWindowFits(lines, window, n, i, shift, indents, more);
    FoundWhere(lines, n, i, a, indents, found);
  }

  /** The window at `i` is reported, with these indentations, exactly when `found` holds. */
  predicate FoundWith(lines: seq<Line>, n: seq<string>, i: nat, indents: Indents, found: bool)
    requires n != [] && i + |n| <= |lines|
  {
    IndentFound(lines, n, i) == if found then Some(WindowAt(lines, |n|, i, IndentationTolerant, Some(indents))) else None
  }

  lemma FoundWhere(lines: seq<Line>, n: seq<string>, i: nat, a: nat, indents: Indents, found: bool)
    requires i + |n| <= |lines| && a == FirstContent(n, 0) && a < |n| && !IsBlank(lines[i + a].text)
    requires indents == Indents(LeadingWhitespace(lines[i + a].text), LeadingWhitespace(n[a]))
    requires found == IndentWindow(lines, n, i, indents, 0)
    ensures FoundWith(lines, n, i, indents, found)
  {}

  lemma {:induction false} CutCrsNone(lines: seq<string>)
    requires forall j :: 0 <= j < |lines| ==> '\r' !in lines[j]
    ensures CutCrs(lines) == lines
  {
    if |lines| > 1 {
      assert '\r' !in lines[0];
      assert lines[0] != "" ==> lines[0][|lines[0]| - 1] in lines[0];
      CutCrsNone(lines[1..]);
    }
  }

  /** A block without carriage returns whose last line is not blank has the lines it was joined from. */
  lemma JoinedBlockLines(n: seq<string>)
    requires n != [] && !IsBlank(n[|n| - 1])
    requires forall j :: 0 <= j < |n| ==> '\n' !in n[j] && '\r' !in n[j]
    ensures NeedleLines(Join(n, "\n")) == n
  {
    SplitLinesJoin(n);
    CutCrsNone(n);
    LastKept(Join(n, "\n"), n);
  }

  lemma LastKept(needle: string, lines: seq<string>)
    requires SplitLines(needle) == lines && lines != [] && lines[|lines| - 1] != ""
    ensures NeedleLines(needle) == lines
  {}

  /** The window at `i` is among the matches. */
  predicate ReportedAt(matches: seq<RawMatch>, i: nat) {
    exists m <- matches :: m.line == i + 1
  }

  lemma ReportedIff(lines: seq<Line>, n: seq<string>, i: nat)
    requires i < |lines|
    ensures ReportedAt(IndentUpTo(lines, n, |lines|), i) <==> IndentFound(lines, n, i).Some?
  {
    if ReportedAt(IndentUpTo(lines, n, |lines|), i) {
      var m :| m in IndentUpTo(lines, n, |lines|) && m.line == i + 1;
      IndentUpToIs(lines, n, |lines|, m);
      var k: nat :| k < |lines| && IndentFound(lines, n, k) == Some(m);
      assert m.line == k + 1;
    }
    if IndentFound(lines, n, i).Some? {
      IndentUpToIs(lines, n, |lines|, IndentFound(lines, n, i).value);
    }
  }

  /** Whatever the search block: where it is a uniformly re-indented window of the file, the indentation-tolerant search
      reports that window if and only if none of its lines is shallower than its first one. */
  lemma ToleranceFindsShifted(haystack: string, needle: string, i: nat, shift: Indents)
    requires i + |NeedleLines(needle)| <= |Lines(haystack)|
    requires Shifted(WindowTexts(Lines(haystack), i, |NeedleLines(needle)|), NeedleLines(needle), shift)
    ensures var window := WindowTexts(Lines(haystack), i, |NeedleLines(needle)|);
            && (ReportedAt(IndentMatches(haystack, needle), i) <==> NoneShallower(window))
            && (NoneShallower(window) ==> ShiftedMatch(haystack, needle, i) in IndentMatches(haystack, needle))
  {
    ShiftedIsFoundIff(Lines(haystack), NeedleLines(needle), i, shift);
    ReportedIff(Lines(haystack), NeedleLines(needle), i);
    if NoneShallower(WindowTexts(Lines(haystack), i, |NeedleLines(needle)|)) {
      IndentUpToIs(Lines(haystack), NeedleLines(needle), |Lines(haystack)|, ShiftedMatch(haystack, needle, i));
    }
  }

  /** The window, with the indentations of the first lines that are not blank. */
  function ShiftedMatch(haystack: string, needle: string, i: nat): RawMatch
    requires i + |NeedleLines(needle)| <= |Lines(haystack)|
  {
    var lines, n := Lines(haystack), NeedleLines(needle);
    var a := FirstContent(n, 0);
    WindowAt(lines, |n|, i, IndentationTolerant, if a < |n| then Some(Indents(LeadingWhitespace(lines[i + a].text), LeadingWhitespace(n[a]))) else None)
  }

  /** The same for lines that are joined to a search block: without carriage returns, and the last not blank. */
  lemma JoinedBlockIsFound(haystack: string, i: nat, n: seq<string>, shift: Indents)
    requires n != [] && i + |n| <= |Lines(haystack)| && !IsBlank(n[|n| - 1])
    requires forall j :: 0 <= j < |n| ==> '\n' !in n[j] && '\r' !in n[j]
    requires Shifted(WindowTexts(Lines(haystack), i, |n|), n, shift)
    ensures ReportedAt(IndentMatches(haystack, Join(n, "\n")), i) <==> NoneShallower(WindowTexts(Lines(haystack), i, |n|))
  {
    JoinedBlockLines(n);
    ToleranceFindsShifted(haystack, Join(n, "\n"), i, shift);
  }

  // ----- what is found -----

  lemma FoundIndents(lines: seq<Line>, n: seq<string>, i: nat)
    requires IndentFound(lines, n, i).Some?
    ensures i + |n| <= |lines| && IndentFound(lines, n, i).value.indents.Some?
    ensures var indents := IndentFound(lines, n, i).value.indents.value;
            var a := FirstContent(n, 0);
            && Indentation(indents.found) && Indentation(indents.search) && IndentWindow(lines, n, i, indents, 0)
            && a < |n| && indents.search == LeadingWhitespace(n[a])
  {
    var a := FirstContent(n, 0);
    LeadingWhitespaceIs(lines[i + a].text);
    LeadingWhitespaceIs(n[a]);
  }

  /** A line that was found to fit is shifted like the anchors exactly when it is blank or starts with the anchor's indentation. */
  lemma FitsShiftedIff(h: string, n: string, indents: Indents)
    requires IndentSame(h, n, indents)
    ensures ShiftedLine(h, n, indents) <==> IsBlank(n) || indents.search <= n
  {}

  /** A reported window is the search block after one uniform shift if and only if no line of the block is shallower than
      its first one. */
  lemma FoundIsShiftedIff(lines: seq<Line>, n: seq<string>, i: nat)
    requires IndentFound(lines, n, i).Some?
    ensures i + |n| <= |lines|
    ensures (exists shift :: Shifted(WindowTexts(lines, i, |n|), n, shift)) <==> NoneShallower(n)
  {
    FoundIndents(lines, n, i);
    var indents := IndentFound(lines, n, i).value.indents.value;
    var window := WindowTexts(lines, i, |n|);
    IndentWindowIff(lines, n, i, indents, 0);
    if NoneShallower(n) {
      forall j | 0 <= j < |n| ensures ShiftedLine(window[j], n[j], indents) {
        FitsShiftedIff(lines[i + j].text, n[j], indents);
      }
      assert Shifted(window, n, indents);
    }
    if shift :| Shifted(window, n, shift) {
      ShiftedIsFoundIff(lines, n, i, shift);
      NeitherShallower(window, n, shift);
    }
  }

  /** A shift keeps lines as deep as their first one is. */
  lemma NeitherShallower(window: seq<string>, n: seq<string>, shift: Indents)
    requires Shifted(window, n, shift)
    ensures NoneShallower(window) ==> NoneShallower(n)
  {
    ShiftedSameAnchor(window, n, shift);
    var a := FirstContent(window, 0);
    if NoneShallower(window) {
      var more := ShiftedLeading(window[a], n[a], shift);
      var indents := Indents(LeadingWhitespace(window[a]), LeadingWhitespace(n[a]));
      forall j | 0 <= j < |n| ensures IsBlank(n[j]) || indents.search <= n[j] {
        ShiftedBlank(window[j], n[j], shift);
        if !IsBlank(n[j]) {
          BothStart(window[j], n[j], shift, indents, more);
        }
      }
    }
  }

  // ----- a block that does not come back -----

  /** The second line of the search block stands one blank less deep than in the file. */
  predicate Underindented(lines: seq<Line>, n: seq<string>) {
    |lines| == 2 && lines[0].text == "  a" && lines[1].text == "  b" && n == ["  a", " b"]
  }

  lemma UnderindentedLines(haystack: string, needle: string)
    requires haystack == "  a" + ("\n" + "  b") && needle == "  a" + ("\n" + " b")
    ensures Underindented(Lines(haystack), NeedleLines(needle))
    ensures SplitLines(needle) == NeedleLines(needle)
  {
    LineTextsAreSplit(haystack);
    assert |Texts(Lines(haystack))| == |Lines(haystack)|;
    SplitLinesCons("  a", "  b");
    SplitLinesCons("  a", " b");
    NoNewlineSplits("  b");
    NoNewlineSplits(" b");
  }

  lemma LeadingOf(line: string, indent: string, c: char)
    requires line == indent + [c] && !IsIndent(c) && forall d <- indent :: IsIndent(d)
    ensures LeadingWhitespace(line) == indent
  {
    LeadingAppend(indent, [c]);
    assert LeadingWhitespace([c]) == "" && indent + "" == indent;
  }

  lemma UnderindentedFits(h: string, n: string, indents: Indents)
    requires h == "  " + "b" && n == " " + "b" && indents.found == indents.search == "  "
    ensures IndentSame(h, n, indents)
  {
    assert TrimStart("b") == "b" && n[1..] == "b";
    assert TrimStart(n) == "b";
  }

  lemma UnderindentedFound(lines: seq<Line>, n: seq<string>)
    requires Underindented(lines, n)
    ensures IndentFound(lines, n, 0) == Some(WindowAt(lines, 2, 0, IndentationTolerant, Some(Indents("  ", "  "))))
  {
    var indents := Indents("  ", "  ");
    LeadingOf(n[0], "  ", 'a');
    assert !IsBlank(n[0]) by { assert !IsSpace(n[0][2]) && IsBlank(n[0]) == IsBlank(n[0][1..]) && n[0][1..][1..] == "a"; }
    UnderindentedFits(lines[1].text, n[1], indents);
    UnderindentedWindow(lines, n, indents);
    FoundWhere(lines, n, 0, 0, indents, true);
  }

  lemma UnderindentedWindow(lines: seq<Line>, n: seq<string>, indents: Indents)
    requires Underindented(lines, n) && indents.found == indents.search == "  " && IndentSame(lines[1].text, n[1], indents)
    ensures IndentWindow(lines, n, 0, indents, 0)
  {
    assert n[0][2..] == "a" && indents.found + "a" == n[0];
    assert IndentWindow(lines, n, 0, indents, 1);
  }

  lemma UnderindentedOnly(lines: seq<Line>, n: seq<string>)
    requires Underindented(lines, n)
    ensures NormalizedUpTo(lines, n, |lines|) == []
    ensures IndentUpTo(lines, n, |lines|) == [WindowAt(lines, 2, 0, IndentationTolerant, Some(Indents("  ", "  ")))]
  {
    UnderindentedFound(lines, n);
    LeadingOf("  b", "  ", 'b');
    LeadingOf(" b", " ", 'b');
    assert !SameNormalized(lines[1].text, n[1]);
    assert !NormalizedWindow(lines, n, 0, 1);
    NoWindowNormalized(lines, n);
    assert IndentUpTo(lines, n, 0) == [] && IndentFound(lines, n, 1).None?;
    assert IndentUpTo(lines, n, 1) == [WindowAt(lines, 2, 0, IndentationTolerant, Some(Indents("  ", "  ")))];
  }

  lemma UnderindentedNotExact(haystack: string, needle: string)
    requires haystack == "  a\n  b" && needle == "  a\n b"
    ensures ExactMatches(haystack, needle) == []
  {
    forall k | 0 <= k <= 1 ensures !Occurs(haystack, needle, k) {
      assert haystack[k..k + 6][5] != needle[5] || haystack[k..k + 6][0] != needle[0] || haystack[k..k + 6][2] != needle[2];
    }
    assert FindFrom(haystack, needle, 0).None?;
  }

  /** The only match of this block is found by indentation; the indentations are the same, so a replacement is left as it
      is; re-indenting the block itself does not give the second line back; and the file lines are no uniform shift of it. */
  lemma UnderindentedStays(haystack: string, needle: string)
    requires haystack == "  a\n  b" && needle == "  a\n b"
    ensures |Lines(haystack)| == |SplitLines(needle)| == 2
    ensures Matches(haystack, needle) == [WindowAt(Lines(haystack), 2, 0, IndentationTolerant, Some(Indents("  ", "  ")))]
    ensures ReindentReplacement(needle, Matches(haystack, needle)[0]) == needle
    ensures TrimEnd(SplitLines(needle)[1]) != TrimEnd(Lines(haystack)[1].text)
    ensures forall shift :: !Shifted(WindowTexts(Lines(haystack), 0, 2), SplitLines(needle), shift)
  {
    assert haystack == "  a" + ("\n" + "  b") && needle == "  a" + ("\n" + " b");
    UnderindentedLines(haystack, needle);
    UnderindentedNotExact(haystack, needle);
    OnlyByIndentation(haystack, needle, Lines(haystack), NeedleLines(needle));
    UnderindentedUneven(Lines(haystack), NeedleLines(needle));
  }

  lemma UnderindentedUneven(lines: seq<Line>, n: seq<string>)
    requires Underindented(lines, n)
    ensures forall shift :: !Shifted(WindowTexts(lines, 0, 2), n, shift)
  {
    UnderindentedFound(lines, n);
    FoundIsShiftedIff(lines, n, 0);
    LeadingOf(n[0], "  ", 'a');
    assert !IsBlank(n[1]) by { BlankAppend(" ", "b"); assert n[1] == " " + "b"; }
    assert !AllStart(n, "  ");
  }

  lemma OnlyByIndentation(haystack: string, needle: string, lines: seq<Line>, n: seq<string>)
    requires lines == Lines(haystack) && n == NeedleLines(needle) && Underindented(lines, n)
    requires needle != "" && ExactMatches(haystack, needle) == []
    ensures Matches(haystack, needle) == [WindowAt(lines, 2, 0, IndentationTolerant, Some(Indents("  ", "  ")))]
  {
    UnderindentedOnly(lines, n);
  }

  // ----- a block that is not found -----

  /** Quoted one blank deeper than the file has it, and ending shallower than it begins. */
  predicate Shallower(lines: seq<Line>, n: seq<string>) {
    |lines| == 2 && lines[0].text == "  a" && lines[1].text == "b" && n == ["   a", " b"]
  }

  lemma ShallowerLines(haystack: string, needle: string)
    requires haystack == "  a" + ("\n" + "b") && needle == "   a" + ("\n" + " b")
    ensures Shallower(Lines(haystack), NeedleLines(needle))
  {
    LineTextsAreSplit(haystack);
    assert |Texts(Lines(haystack))| == |Lines(haystack)|;
    SplitLinesCons("  a", "b");
    SplitLinesCons("   a", " b");
    NoNewlineSplits("b");
    NoNewlineSplits(" b");
  }

  lemma DeeperByOne(h: string, n: string)
    requires n == " " + h && !IsBlank(h)
    ensures ShiftedLine(h, n, Indents("", " "))
  {
    BlankAppend(" ", h);
    DropPrefix(" ", h);
    assert "" + h == h;
  }

  lemma NotBlankWith(line: string, indent: string, c: char)
    requires line == indent + [c] && !IsSpace(c) && Indentation(indent)
    ensures !IsBlank(line)
  {
    BlankAppend(indent, [c]);
    assert !IsBlank([c]);
  }

  lemma ShallowerIsShifted(window: seq<string>, n: seq<string>)
    requires window == ["  a", "b"] && n == ["   a", " b"]
    ensures Shifted(window, n, Indents("", " ")) && !NoneShallower(window)
  {
    NotBlankWith(window[0], "  ", 'a');
    NotBlankWith(window[1], "", 'b');
    DeeperByOne(window[0], n[0]);
    DeeperByOne(window[1], n[1]);
    LeadingOf(window[0], "  ", 'a');
    assert FirstContent(window, 0) == 0;
    assert !AllStart(window, "  ");
  }

  lemma ShallowerNotIndented(lines: seq<Line>, n: seq<string>)
    requires Shallower(lines, n)
    ensures IndentUpTo(lines, n, |lines|) == []
  {
    ShallowerIsShifted(WindowTexts(lines, 0, 2), n);
    ShiftedIsFoundIff(lines, n, 0, Indents("", " "));
    NoWindowIndented(lines, n);
  }

  lemma NoWindowIndented(lines: seq<Line>, n: seq<string>)
    requires |lines| == |n| == 2 && IndentFound(lines, n, 0).None?
    ensures IndentUpTo(lines, n, 2) == []
  {
    assert IndentUpTo(lines, n, 0) == [] && IndentUpTo(lines, n, 1) == [] && IndentFound(lines, n, 1).None?;
  }

  lemma ShallowerNotNormalized(lines: seq<Line>, n: seq<string>)
    requires Shallower(lines, n)
    ensures NormalizedUpTo(lines, n, |lines|) == []
  {
    LeadingOf(lines[0].text, "  ", 'a');
    LeadingOf(n[0], "   ", 'a');
    NotBlankWith(n[0], "   ", 'a');
    assert !SameNormalized(lines[0].text, n[0]) && !NormalizedWindow(lines, n, 0, 0);
    NoWindowNormalized(lines, n);
  }

  lemma NoWindowNormalized(lines: seq<Line>, n: seq<string>)
    requires |lines| == |n| == 2 && NormalizedFound(lines, n, 0).None?
    ensures NormalizedUpTo(lines, n, 2) == []
  {
    assert NormalizedUpTo(lines, n, 0) == [] && NormalizedUpTo(lines, n, 1) == [] && NormalizedFound(lines, n, 1).None?;
  }

  /** The block is the whole file after a uniform shift, and it is not found. */
  lemma ShallowerIsMissed(haystack: string, needle: string)
    requires haystack == "  a\nb" && needle == "   a\n b"
    ensures |Lines(haystack)| == |NeedleLines(needle)| == 2
    ensures Shifted(WindowTexts(Lines(haystack), 0, 2), NeedleLines(needle), Indents("", " "))
    ensures Matches(haystack, needle) == []
  {
    assert haystack == "  a" + ("\n" + "b") && needle == "   a" + ("\n" + " b");
    ShallowerLines(haystack, needle);
    ShallowerIsShifted(WindowTexts(Lines(haystack), 0, 2), NeedleLines(needle));
    assert FindFrom(haystack, needle, 0).None?;
    FoundByNone(haystack, needle, Lines(haystack), NeedleLines(needle));
  }

  lemma FoundByNone(haystack: string, needle: string, lines: seq<Line>, n: seq<string>)
    requires lines == Lines(haystack) && n == NeedleLines(needle) && Shallower(lines, n)
    requires needle != "" && ExactMatches(haystack, needle) == []
    ensures Matches(haystack, needle) == []
  {
    ShallowerNotNormalized(lines, n);
    ShallowerNotIndented(lines, n);
  }
}
