/** What the indentation check asks of a text, told line by line (packages/apply/src/validate.ts). */
module Indentation {
  import opened Text
  import opened Validate
  import Grammar
  import GrammarFacts

  // ----- headers -----

  /** Only white space from one offset to another. */
  predicate White(line: string, from: nat, to: nat)
    requires to <= |line|
  {
    forall j :: from <= j < to ==> IsSpace(line[j])
  }

  /** A `#` that no line terminator follows. */
  predicate StartsComment(line: string, c: nat) {
    c < |line| && line[c] == '#' && forall j :: c <= j < |line| ==> line[j] !in "\n\r" && line[j] != '\U{2028}' && line[j] != '\U{2029}'
  }

  /** The first comment starts at `c`, or there is none and the line ends there. */
  predicate CodeEnds(line: string, c: nat) {
    c <= |line| && (c < |line| ==> StartsComment(line, c)) && forall j :: 0 <= j < c ==> !StartsComment(line, j)
  }

  /** The last character before the comment, white space aside, is a colon. */
  predicate ColonLast(line: string, c: nat, k: nat) {
    k < c <= |line| && line[k] == ':' && White(line, k + 1, c)
  }

  ghost predicate Header(line: string) {
    exists c: nat, k: nat :: CodeEnds(line, c) && ColonLast(line, c, k)
  }

  lemma CommentShift(line: string, j: nat)
    requires line != ""
    ensures StartsComment(line, j + 1) <==> StartsComment(line[1..], j)
  {
    var rest := line[1..];
    if StartsComment(rest, j) {
      forall i | j + 1 <= i < |line| ensures line[i] == rest[i - 1] {}
    }
    if StartsComment(line, j + 1) {
      forall i | j <= i < |rest| ensures rest[i] == line[i + 1] {}
    }
  }

  lemma CommentHere(line: string)
    requires line != ""
    ensures StartsComment(line, 0)
       <==> line[0] == '#' && forall c <- line :: c !in "\n\r" && c != '\U{2028}' && c != '\U{2029}'
  {}

  lemma {:induction false} StrippedIsCode(line: string) returns (c: nat)
    ensures CodeEnds(line, c) && StripComment(line) == line[..c]
  {
    if line == "" {
      c := 0;
    } else {
      CommentHere(line);
      if StartsComment(line, 0) {
        c := 0;
      } else {
        var d := StrippedIsCode(line[1..]);
        c := d + 1;
        CodeEndsLater(line, d);
        assert [line[0]] + line[1..][..d] == line[..c];
      }
    }
  }

  lemma CodeEndsLater(line: string, d: nat)
    requires line != "" && !StartsComment(line, 0) && CodeEnds(line[1..], d)
    ensures CodeEnds(line, d + 1)
  {
    CommentShift(line, d);
    forall j | 0 <= j < d + 1 ensures !StartsComment(line, j) {
      if j > 0 {
        CommentShift(line, j - 1);
      }
    }
  }

  lemma CodeEndsOnce(line: string, c: nat, d: nat)
    requires CodeEnds(line, c) && CodeEnds(line, d)
    ensures c == d
  {}

  /** The last character of a text, white space aside. */
  lemma LastOf(s: string, ch: char)
    requires !IsSpace(ch)
    ensures (TrimEnd(s) != "" && TrimEnd(s)[|TrimEnd(s)| - 1] == ch) <==> exists k: nat :: k < |s| && s[k] == ch && White(s, k + 1, |s|)
  {
    var t := TrimEnd(s);
    TrimEndIs(s);
    forall j | |t| <= j < |s| ensures IsSpace(s[j]) {
      assert s[j] == s[|t|..][j - |t|];
    }
    if t != "" && t[|t| - 1] == ch {
      assert s[|t| - 1] == ch && White(s, |t|, |s|);
    }
    if k: nat :| k < |s| && s[k] == ch && White(s, k + 1, |s|) {
      assert k < |t| && t[|t| - 1] == s[|t| - 1];
    }
  }

  /** The test of the check is this. */
  lemma HeaderIff(line: string)
    ensures OpensBlock(line) <==> Header(line)
  {
    var c := StrippedIsCode(line);
    var code := line[..c];
    LastOf(code, ':');
    if OpensBlock(line) {
      var k: nat :| k < |code| && code[k] == ':' && White(code, k + 1, |code|);
      ColonIn(line, c, k);
    }
    if Header(line) {
      var d: nat, k: nat :| CodeEnds(line, d) && ColonLast(line, d, k);
      CodeEndsOnce(line, c, d);
      ColonIn(line, c, k);
    }
  }

  lemma ColonIn(line: string, c: nat, k: nat)
    requires c <= |line|
    ensures ColonLast(line, c, k) <==> k < |line[..c]| && line[..c][k] == ':' && White(line[..c], k + 1, c)
  {
    assert forall j :: 0 <= j < c ==> line[..c][j] == line[j];
  }

  // ----- bodies -----

  predicate Blank(line: string) {
    White(line, 0, |line|)
  }

  lemma BlankIff(line: string)
    ensures Blank(line) <==> IsBlank(line)
  {
    IsBlankIff(line);
    if Blank(line) {
      forall c <- line ensures IsSpace(c) {
        var j :| 0 <= j < |line| && line[j] == c;
      }
    }
  }

  /** The line begins with exactly `d` blanks and tabs. */
  predicate Depth(line: string, d: nat) {
    && d <= |line| && (forall j :: 0 <= j < d ==> line[j] == ' ' || line[j] == '\t')
    && (d < |line| ==> line[d] != ' ' && line[d] != '\t')
  }

  lemma DepthIs(line: string)
    ensures Depth(line, Indent(line))
  {
    var lead := LeadingWhitespace(line);
    LeadingWhitespaceIs(line);
    forall j | 0 <= j < |lead| ensures line[j] == ' ' || line[j] == '\t' {
      assert line[j] == lead[j] && lead[j] in lead;
    }
  }

  lemma DepthOnce(line: string, d: nat, e: nat)
    requires Depth(line, d) && Depth(line, e)
    ensures d == e
  {}

  /** `b` begins with more blanks and tabs than `a`. */
  ghost predicate Deeper(a: string, b: string) {
    exists d: nat, e: nat :: Depth(a, d) && Depth(b, e) && d < e
  }

  lemma DeeperIff(a: string, b: string)
    ensures Deeper(a, b) <==> Indent(a) < Indent(b)
  {
    DepthIs(a);
    DepthIs(b);
    if d: nat, e: nat :| Depth(a, d) && Depth(b, e) && d < e {
      DepthOnce(a, d, Indent(a));
      DepthOnce(b, e, Indent(b));
    }
  }

  /** Line `j` is the first behind line `i` that is not blank. */
  predicate Follows(lines: seq<string>, i: nat, j: nat) {
    i < j < |lines| && !Blank(lines[j]) && forall k :: i < k < j ==> Blank(lines[k])
  }

  predicate NothingFollows(lines: seq<string>, i: nat) {
    forall k :: i < k < |lines| ==> Blank(lines[k])
  }

  lemma {:induction false} FirstContentIs(lines: seq<string>, i: nat, from: nat)
    requires i < from <= |lines| && forall k :: i < k < from ==> Blank(lines[k])
    ensures var j := FirstContent(lines, from);
            if j < |lines| then Follows(lines, i, j) else NothingFollows(lines, i)
    decreases |lines| - from
  {
    if from < |lines| {
      BlankIff(lines[from]);
      if IsBlank(lines[from]) {
        FirstContentIs(lines, i, from + 1);
      }
    }
  }

  /** The block that line `i` opens is the first line that follows, and that is deeper. */
  ghost predicate HasBody(lines: seq<string>, i: nat)
    requires i < |lines|
  {
    exists j: nat :: Follows(lines, i, j) && Deeper(lines[i], lines[j])
  }

  lemma FollowsOnce(lines: seq<string>, i: nat, j: nat, k: nat)
    requires Follows(lines, i, j) && Follows(lines, i, k)
    ensures j == k
  {}

  /** What is found wrong with a line: nothing with one that opens no block or has a deeper body; else whether nothing
      follows, or something that is not deeper. */
  lemma IssueIs(lines: seq<string>, i: nat)
    requires i < |lines|
    ensures BlockIssue(lines, i).None? <==> (Header(lines[i]) ==> HasBody(lines, i))
    ensures BlockIssue(lines, i).Some? ==> BlockIssue(lines, i).value == if NothingFollows(lines, i) then NoBodyAtEof else NoIndentedBody
  {
    HeaderIff(lines[i]);
    FirstContentIs(lines, i, i + 1);
    var j := FirstContent(lines, i + 1);
    if j < |lines| {
      DeeperIff(lines[i], lines[j]);
      assert !NothingFollows(lines, i);
      if k: nat :| Follows(lines, i, k) && Deeper(lines[i], lines[k]) {
        FollowsOnce(lines, i, j, k);
      }
    }
  }

  ghost predicate WellIndented(lines: seq<string>, n: nat) {
    forall i :: 0 <= i < n && i < |lines| && Header(lines[i]) ==> HasBody(lines, i)
  }

  lemma CoherentIff(lines: seq<string>, n: nat)
    requires n <= |lines|
    ensures (forall i :: 0 <= i < n ==> BlockIssue(lines, i).None?) <==> WellIndented(lines, n)
  {
    forall i | 0 <= i < n ensures BlockIssue(lines, i).None? <==> (Header(lines[i]) ==> HasBody(lines, i)) {
      IssueIs(lines, i);
    }
  }

  // ----- the verdict -----

  /** A Python text is valid exactly when it is in the grammar and every line that ends its code in a colon has a body:
      something follows it, and the first that does is deeper. */
  lemma PythonIsValidIff(content: string, language: string)
    requires language in ["py", "pyi"]
    ensures StructuralVerdict(content, language).Valid?
       <==> Grammar.InGrammar(PYTHON, content) && WellIndented(SplitLines(content), |SplitLines(content)|)
  {
    GrammarFacts.ValidIffGrammar(content, language);
    CoherentIff(SplitLines(content), |SplitLines(content)|);
  }

  /** The first line that is wrong, and why. */
  ghost predicate FirstWrong(lines: seq<string>, issue: Issue, line: nat) {
    && 1 <= line <= |lines| && Header(lines[line - 1]) && !HasBody(lines, line - 1) && WellIndented(lines, line - 1)
    && issue == if NothingFollows(lines, line - 1) then NoBodyAtEof else NoIndentedBody
  }

  lemma FirstIssueIsWrong(lines: seq<string>, issue: Issue, line: nat)
    requires FirstIssue(lines, 0) == Some((issue, line))
    ensures FirstWrong(lines, issue, line)
  {
    FirstIssueIs(lines, 0);
    IssueIs(lines, line - 1);
    CoherentIff(lines, line - 1);
  }

  /** A text in the grammar that is rejected is rejected at the first such line without a body, for having nothing behind
      it or something that is not deeper. */
  lemma PythonRejection(content: string, language: string)
    requires language in ["py", "pyi"] && Grammar.InGrammar(PYTHON, content)
    ensures match StructuralVerdict(content, language)
            case Valid(_) => true
            case Invalid(validator, issue, line) => validator == Structural && FirstWrong(SplitLines(content), issue, line)
  {
    GrammarFacts.ScannerAcceptsGrammar(PYTHON, content, 1);
    PythonJudged(content, language);
    match FirstIssue(SplitLines(content), 0) {
      case None =>
      case Some((issue, line)) => FirstIssueIsWrong(SplitLines(content), issue, line);
    }
  }

  lemma PythonJudged(content: string, language: string)
    requires language in ["py", "pyi"] && Scan(PYTHON, content, START).Accept?
    ensures StructuralVerdict(content, language) == match FirstIssue(SplitLines(content), 0)
      case None => Valid(Structural)
      case Some((issue, line)) => Invalid(Structural, issue, line)
  {
    assert SpecFor(language) == PYTHON;
    Judged(PYTHON, content, language);
  }

  lemma Judged(spec: LanguageSpec, content: string, language: string)
    requires SpecFor(language) == spec && !spec.family.Unknown? && Scan(spec, content, START).Accept?
    ensures StructuralVerdict(content, language) == IndentVerdict(spec, content)
  {}
}
