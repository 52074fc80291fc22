/** When re-indentation undoes what indentation tolerance allowed (packages/apply/src/match.ts). */
module Reindent {
  import opened Text
  import opened Match
  import opened MatchFacts

  // ----- trimming and splitting -----

  lemma {:induction false} TrimEndOfBlank(s: string)
    requires forall c <- s :: IsSpace(c)
    ensures TrimEnd(s) == ""
    decreases |s|
  {
    if s != "" {
      assert s[|s| - 1] in s;
      assert forall c <- s[..|s| - 1] :: c in s;
      TrimEndOfBlank(s[..|s| - 1]);
    }
  }

  lemma BlankTrimsToNothing(s: string)
    requires IsBlank(s)
    ensures TrimEnd(s) == ""
  {
    IsBlankIff(s);
    TrimEndOfBlank(s);
  }

  lemma TrimEndDropCr(s: string)
    ensures TrimEnd(DropCr(s)) == TrimEnd(s)
  {}

  /** What joining lines with newlines and splitting them again gives. */
  function CutCrs(lines: seq<string>): (r: seq<string>)
    ensures |r| == |lines|
  {
    if |lines| <= 1 then lines else [DropCr(lines[0])] + CutCrs(lines[1..])
  }

  lemma {:induction false} CutCrsAt(lines: seq<string>, j: nat)
    requires j < |lines|
    ensures CutCrs(lines)[j] == if j < |lines| - 1 then DropCr(lines[j]) else lines[j]
  {
    if j > 0 {
      CutCrsAt(lines[1..], j - 1);
    }
  }

  lemma {:induction false} SplitLinesJoin(lines: seq<string>)
    requires lines != [] && forall j :: 0 <= j < |lines| ==> '\n' !in lines[j]
    ensures SplitLines(Join(lines, "\n")) == CutCrs(lines)
  {
    var s := Join(lines, "\n");
    if |lines| == 1 {
      NoNewlineSplits(s);
    } else {
      SplitLinesJoin(lines[1..]);
      SplitLinesCons(lines[0], Join(lines[1..], "\n"));
    }
  }

  lemma SplitLinesCons(line: string, rest: string)
    requires '\n' !in line
    ensures SplitLines(line + ("\n" + rest)) == [DropCr(line)] + SplitLines(rest)
  {
    ThreeParts(line, "\n", rest);
    SplitLinesStep(line + ("\n" + rest), |line|);
  }

  lemma {:induction false} SplitLinesFree(s: string, j: nat)
    requires j < |SplitLines(s)|
    ensures '\n' !in SplitLines(s)[j]
  {
    SplitLinesPieces(s);
    assert SplitLines(s)[j] in SplitLines(s);
  }

  // ----- re-indenting the block that matched -----

  lemma {:induction false} IndentWindowIff(lines: seq<Line>, n: seq<string>, i: nat, indents: Indents, from: nat)
    requires i + |n| <= |lines| && from <= |n|
    ensures IndentWindow(lines, n, i, indents, from) <==> forall j :: from <= j < |n| ==> IndentSame(lines[i + j].text, n[j], indents)
    decreases |n| - from
  {
    if from < |n| {
      IndentWindowIff(lines, n, i, indents, from + 1);
    }
  }

  lemma NeedleLineIs(needle: string, j: nat)
    requires j < |NeedleLines(needle)|
    ensures j < |SplitLines(needle)| && NeedleLines(needle)[j] == SplitLines(needle)[j]
  {}

  lemma RebaseFree(line: string, indents: Indents)
    requires '\n' !in line && '\n' !in indents.found
    ensures '\n' !in ReindentLine(line, indents)
  {
    TrimStartIs(line);
    assert forall c <- TrimStart(line) :: c in line;
    assert |indents.search| <= |line| ==> forall c <- line[|indents.search|..] :: c in line;
  }

  lemma LeadingFree(line: string)
    ensures '\n' !in LeadingWhitespace(line)
  {
    LeadingWhitespaceIs(line);
  }

  /** The re-indented block, line by line: what the map made of each line, up to trailing white space. */
  lemma ReindentedLine(replacement: string, m: RawMatch, j: nat)
    requires m.indents.Some? && '\n' !in m.indents.value.found && j < |SplitLines(replacement)|
    ensures var out := SplitLines(ReindentReplacement(replacement, m));
            var line := SplitLines(replacement)[j];
            && |out| == |SplitLines(replacement)|
            && TrimEnd(out[j]) == TrimEnd(if m.indents.value.found == m.indents.value.search then line else ReindentLine(line, m.indents.value))
  {
    var indents := m.indents.value;
    if indents.found != indents.search {
      var lines := SplitLines(replacement);
      var shifted := ReindentLines(lines, indents);
      forall k | 0 <= k < |shifted| ensures '\n' !in shifted[k] {
        SplitLinesFree(replacement, k);
        RebaseFree(lines[k], indents);
      }
      SplitLinesJoin(shifted);
      CutCrsAt(shifted, j);
      TrimEndDropCr(shifted[j]);
    }
  }

  /** Re-indenting the search block itself at a reported match gives a matched file line back, up to trailing
      white space, exactly when the indentations differ or the search line is blank or starts with the
      anchor's indentation. An under-indented line is matched as if it were moved, but it is left as it is when the
      indentation found is the one searched for. */
  lemma ReindentUndoesTolerance(haystack: string, needle: string, i: nat, j: nat)
    requires IndentFound(Lines(haystack), NeedleLines(needle), i).Some? && j < |NeedleLines(needle)|
    ensures var m := IndentFound(Lines(haystack), NeedleLines(needle), i).value;
            var out, n, indents := SplitLines(ReindentReplacement(needle, m)), NeedleLines(needle)[j], m.indents.value;
            && |out| == |SplitLines(needle)| && j < |out| && i + j < |Lines(haystack)|
            && (TrimEnd(out[j]) == TrimEnd(Lines(haystack)[i + j].text) <==>
                  indents.found != indents.search || IsBlank(n) || indents.search <= n)
  {
    UndoesTolerance(Lines(haystack), needle, NeedleLines(needle), i, j);
  }

  lemma UndoesTolerance(lines: seq<Line>, needle: string, n: seq<string>, i: nat, j: nat)
    requires n == NeedleLines(needle) && IndentFound(lines, n, i).Some? && j < |n|
    ensures var m := IndentFound(lines, n, i).value;
            var out, indents := SplitLines(ReindentReplacement(needle, m)), m.indents.value;
            && |out| == |SplitLines(needle)| && j < |out| && i + j < |lines|
            && (TrimEnd(out[j]) == TrimEnd(lines[i + j].text) <==>
                  indents.found != indents.search || IsBlank(n[j]) || indents.search <= n[j])
  {
    var m := IndentFound(lines, n, i).value;
    var indents := m.indents.value;
    LeadingFree(lines[i + FirstContent(n, 0)].text);
    NeedleLineIs(needle, j);
    ReindentedLine(needle, m, j);
    IndentWindowIff(lines, n, i, indents, 0);
    LineUndone(lines[i + j].text, n[j], indents);
  }

  lemma LineUndone(h: string, n: string, indents: Indents)
    requires IndentSame(h, n, indents)
    ensures TrimEnd(if indents.found == indents.search then n else ReindentLine(n, indents)) == TrimEnd(h) <==>
            indents.found != indents.search || IsBlank(n) || indents.search <= n
  {
    if IsBlank(n) {
      BlankTrimsToNothing(n);
      BlankTrimsToNothing(h);
    } else if indents.search <= n {
      PrefixRest(indents.search, n);
    } else if indents.found == indents.search {
      TrimmedPrefix(n, indents.found);
    }
  }

  /** Moving a line to another indentation shows, even after trimming its end. */
  lemma TrimmedPrefix(n: string, found: string)
    requires !IsBlank(n) && !(found <= n)
    ensures TrimEnd(n) != TrimEnd(found + TrimStart(n))
  {
    var u := TrimStart(n);
    var w := n[..|n| - |u|];
    TrimStartIs(n);
    IsBlankIff(n);
    TakeDrop(n, |w|);
    assert u != "";
    TrimEndAppend(w, u);
    TrimEndAppend(found, u);
    assert w != found;
    if |w| == |found| {
      DropPrefix(w, TrimEnd(u));
      DropPrefix(found, TrimEnd(u));
    }
  }

  lemma {:induction false} TrimEndAppend(w: string, u: string)
    requires u != "" && !IsSpace(u[0])
    ensures TrimEnd(w + u) == w + TrimEnd(u)
    decreases |u|
  {
    var s := w + u;
    assert s[|s| - 1] == u[|u| - 1];
    if IsSpace(u[|u| - 1]) {
      assert s[..|s| - 1] == w + u[..|u| - 1];
      TrimEndAppend(w, u[..|u| - 1]);
    }
  }
}
