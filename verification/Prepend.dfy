/** Why a valid block of whole lines can be put in front of any text: the verdict on that text only moves down
    (packages/apply/src/validate.ts). */
module Prepend {
  import opened Text
  import opened Validate
  import opened Framing
  import opened LineReports

  // ----- putting whole lines in front of a text -----

  predicate EndsLine(s: string) {
    s != "" && s[|s| - 1] == '\n'
  }

  lemma MarkLocal(mark: string, s: string, b: string)
    requires '\n' !in mark && EndsLine(s)
    ensures mark <= s + b <==> mark <= s
  {
    if |mark| <= |s| {
      assert (s + b)[..|mark|] == s[..|mark|];
    } else {
      var c, d := mark[|s| - 1], (s + b)[|s| - 1];
      assert mark <= s + b ==> c == d;
    }
  }

  lemma {:induction false} FirstMarkLocal(marks: seq<string>, s: string, b: string)
    requires MarksOk(marks) && EndsLine(s)
    ensures FirstMark(marks, s + b) == FirstMark(marks, s)
  {
    if marks != [] {
      MarkLocal(marks[0], s, b);
      FirstMarkLocal(marks[1..], s, b);
    }
  }

  lemma LeadLocal(spec: LanguageSpec, s: string, b: string)
    requires EndsLine(s)
    ensures LeadOf(spec, s + b) == LeadOf(spec, s)
  {
    FirstMarkLocal(spec.lineComments, s, b);
    FirstMarkLocal(spec.multilineQuotes, s, b);
    if spec.blockComment.Some? {
      MarkLocal(spec.blockComment.value.0, s, b);
    }
  }

  lemma {:induction false} FirstIndexMore(s: string, c: char, b: string)
    requires FirstIndex(s, c) < |s|
    ensures FirstIndex(s + b, c) == FirstIndex(s, c)
  {
    if s[0] != c {
      FirstIndexMore(s[1..], c, b);
      assert (s + b)[1..] == s[1..] + b;
    }
  }

  lemma DropAppend(s: string, k: nat, b: string)
    requires k <= |s|
    ensures (s + b)[k..] == s[k..] + b && (s + b)[..k] == s[..k]
  {}

  /** A round that starts inside whole lines reads nothing behind them. */
  lemma StepLocal(spec: LanguageSpec, s: string, cfg: Config, b: string)
    requires InShape(spec, cfg) && EndsLine(s)
    requires Step(spec, s, cfg).Next?
    ensures var Next(rest, cfg') := Step(spec, s, cfg);
            Step(spec, s + b, cfg) == Next(rest + b, cfg') && (rest == "" || EndsLine(rest))
  {
    var Next(rest, cfg') := Step(spec, s, cfg);
    assert (s + b)[0] == s[0];
    DropAppend(s, 1, b);
    if s[0] != '\n' {
      DropAppend(s, 2, b);
      if Nested(cfg.stack) {
        CodeMoveLocal(spec, s, cfg, b);
      } else {
        MarkLocal("${", s, b);
        match Top(cfg.stack).value {
          case Str(delim, _) =>
            MarkLocal(delim, s, b);
            if delim <= s { DropAppend(s, |delim|, b); }
          case _ =>
        }
      }
    }
  }

  lemma CodeMoveLocal(spec: LanguageSpec, s: string, cfg: Config, b: string)
    requires EndsLine(s) && s[0] != '\n'
    requires CodeMove(spec, s, cfg).Next?
    ensures var Next(rest, cfg') := CodeMove(spec, s, cfg);
            && (s + b)[0] == s[0]
            && CodeMove(spec, s + b, cfg) == Next(rest + b, cfg')
            && (rest == "" || EndsLine(rest))
  {
    LeadLocal(spec, s, b);
    DropAppend(s, 1, b);
    match LeadOf(spec, s) {
      case BlockOpen =>
        CommentMoveLocal(spec.blockComment.value.0, spec.blockComment.value.1, s, cfg, b);
      case LineMark =>
        FirstIndexMore'(s);
        FirstIndexMore(s, '\n', b);
        DropAppend(s, FirstIndex(s, '\n'), b);
      case MultiQuote(mark) =>
        DropAppend(s, |mark|, b);
      case _ =>
    }
  }

  lemma CommentMoveLocal(open: string, close: string, s: string, cfg: Config, b: string)
    requires EndsLine(s) && open != "" && open <= s && open <= s + b && CommentMove(open, close, s, cfg).Next?
    ensures var Next(rest, cfg') := CommentMove(open, close, s, cfg);
            CommentMove(open, close, s + b, cfg) == Next(rest + b, cfg') && (rest == "" || EndsLine(rest))
  {
    DropAppend(s, |open|, b);
    FindMore(s[|open|..], close, b);
    var from := |open| + Find(s[|open|..], close).value;
    DropAppend(s, from, b);
    DropAppend(s, from + |close|, b);
    RestEndsLine(s, from + |close|);
  }

  lemma RestEndsLine(s: string, n: nat)
    requires EndsLine(s) && n <= |s|
    ensures s[n..] == "" || EndsLine(s[n..])
  {}

  lemma FirstIndexMore'(s: string)
    requires EndsLine(s)
    ensures FirstIndex(s, '\n') < |s|
  {
    FirstIndexFirst(s, '\n');
    assert s[|s| - 1] in s[..|s|];
  }

  /** Whole lines that are accepted leave the scanner as it began, but for the line. */
  lemma {:induction false} ScanLocal(spec: LanguageSpec, s: string, cfg: Config, b: string)
    requires InShape(spec, cfg) && (s == "" || EndsLine(s)) && Scan(spec, s, cfg).Accept?
    ensures Scan(spec, s + b, cfg) == Scan(spec, b, Config([Code], [], EndLine(spec, s, cfg)))
    decreases |s|
  {
    StepKeepsShape(spec, s, cfg);
    match Step(spec, s, cfg) {
      case Next(rest, cfg') =>
        StepLocal(spec, s, cfg, b);
        ScanLocal(spec, rest, cfg', b);
      case Stop(_) =>
        assert s + b == b;
    }
  }

  // ----- starting at another line -----

  function LaterAll(brackets: seq<Bracket>, d: nat): (r: seq<Bracket>)
    ensures |r| == |brackets|
  {
    if brackets == [] then []
    else
      var b := brackets[|brackets| - 1];
      LaterAll(brackets[..|brackets| - 1], d) + [b.(line := b.line + d)]
  }

  function Later(cfg: Config, d: nat): Config {
    Config(cfg.stack, LaterAll(cfg.brackets, d), cfg.line + d)
  }

  /** The same reason, with the line it mentions moved. */
  function MovedIssue(issue: Issue, d: nat): Issue {
    match issue
    case MismatchedBracket(open, openedAt, ch) => MismatchedBracket(open, openedAt + d, ch)
    case Unclosed(ch, openedAt) => Unclosed(ch, openedAt + d)
    case _ => issue
  }

  function MovedVerdict(verdict: Verdict, d: nat): Verdict {
    match verdict
    case Accept => Accept
    case Reject(issue, line) => Reject(MovedIssue(issue, d), line + d)
  }

  function MovedOn(m: Move, d: nat): Move {
    match m
    case Stop(verdict) => Stop(MovedVerdict(verdict, d))
    case Next(rest, cfg) => Next(rest, Later(cfg, d))
  }

  lemma LaterPush(brackets: seq<Bracket>, b: Bracket, d: nat)
    ensures LaterAll(brackets + [b], d) == LaterAll(brackets, d) + [b.(line := b.line + d)]
  {
    PopPush(brackets, b);
  }

  lemma {:induction false} LaterFirst(brackets: seq<Bracket>, d: nat)
    requires brackets != []
    ensures LaterAll(brackets, d)[0] == brackets[0].(line := brackets[0].line + d)
  {
    if |brackets| > 1 {
      LaterFirst(brackets[..|brackets| - 1], d);
    }
  }

  lemma LaterTop(brackets: seq<Bracket>, d: nat)
    requires brackets != []
    ensures var r, last := LaterAll(brackets, d), brackets[|brackets| - 1];
            Pop(r) == LaterAll(Pop(brackets), d) && Top(r) == Some(last.(line := last.line + d))
  {}

  lemma CloserLater(s: string, cfg: Config, d: nat)
    requires s != ""
    ensures CloserMove(s, Later(cfg, d)) == MovedOn(CloserMove(s, cfg), d)
  {
    if cfg.brackets != [] {
      LaterTop(cfg.brackets, d);
    }
  }

  lemma CodeMoveLater(spec: LanguageSpec, s: string, cfg: Config, d: nat)
    requires s != "" && s[0] != '\n'
    ensures CodeMove(spec, s, Later(cfg, d)) == MovedOn(CodeMove(spec, s, cfg), d)
  {
    match LeadOf(spec, s) {
      case Opener => LaterPush(cfg.brackets, Bracket(s[0], cfg.line, false), d);
      case Closer => CloserLater(s, cfg, d);
      case _ =>
    }
  }

  lemma AtEndLater(spec: LanguageSpec, cfg: Config, d: nat)
    ensures AtEnd(spec, Later(cfg, d)) == MovedVerdict(AtEnd(spec, cfg), d)
  {
    if cfg.brackets != [] {
      LaterFirst(cfg.brackets, d);
    }
  }

  lemma StringLater(spec: LanguageSpec, s: string, cfg: Config, d: nat)
    requires s != "" && s[0] != '\n' && cfg.stack != [] && Top(cfg.stack).value.Str?
    ensures Step(spec, s, Later(cfg, d)) == MovedOn(Step(spec, s, cfg), d)
  {}

  lemma TemplateLater(spec: LanguageSpec, s: string, cfg: Config, d: nat)
    requires s != "" && s[0] != '\n' && cfg.stack != [] && Top(cfg.stack).value.Template?
    ensures Step(spec, s, Later(cfg, d)) == MovedOn(Step(spec, s, cfg), d)
  {
    if s[0] != '\\' && "${" <= s {
      HoleLater(cfg.stack + [Interp], cfg.brackets, cfg.line, d);
    }
  }

  lemma HoleLater(stack: seq<Ctx>, brackets: seq<Bracket>, line: nat, d: nat)
    ensures Config(stack, LaterAll(brackets, d) + [Bracket('{', line + d, true)], line + d)
         == Later(Config(stack, brackets + [Bracket('{', line, true)], line), d)
  {
    LaterPush(brackets, Bracket('{', line, true), d);
  }

  lemma PlainLater(spec: LanguageSpec, s: string, cfg: Config, d: nat)
    requires s != "" && s[0] != '\n' && (cfg.stack == [] || Top(cfg.stack).value.Code? || Top(cfg.stack).value.Interp?)
    ensures Step(spec, s, Later(cfg, d)) == MovedOn(Step(spec, s, cfg), d)
  {
    AtEndLater(spec, cfg, d);
    CodeMoveLater(spec, s, cfg, d);
  }

  lemma BreakLater(spec: LanguageSpec, s: string, cfg: Config, d: nat)
    requires s == "" || s[0] == '\n'
    ensures Step(spec, s, Later(cfg, d)) == MovedOn(Step(spec, s, cfg), d)
  {
    AtEndLater(spec, cfg, d);
  }

  lemma StepLater(spec: LanguageSpec, s: string, cfg: Config, d: nat)
    ensures Step(spec, s, Later(cfg, d)) == MovedOn(Step(spec, s, cfg), d)
  {
    if s == "" || s[0] == '\n' {
      BreakLater(spec, s, cfg, d);
    } else if cfg.stack == [] {
      PlainLater(spec, s, cfg, d);
    } else {
      match Top(cfg.stack).value {
        case Str(_, _) => StringLater(spec, s, cfg, d);
        case Template => TemplateLater(spec, s, cfg, d);
        case _ => PlainLater(spec, s, cfg, d);
      }
    }
  }

  lemma {:induction false} ScanLater(spec: LanguageSpec, s: string, cfg: Config, d: nat)
    ensures Scan(spec, s, Later(cfg, d)) == MovedVerdict(Scan(spec, s, cfg), d)
    decreases |s|
  {
    StepLater(spec, s, cfg, d);
    match Step(spec, s, cfg) {
      case Next(rest, cfg') => ScanLater(spec, rest, cfg', d);
      case Stop(_) =>
    }
  }

  // ----- the indentation check -----

  lemma {:induction false} SplitLinesAppend(a: string, b: string)
    requires EndsLine(a)
    ensures SplitLines(a + b) == Pop(SplitLines(a)) + SplitLines(b)
    decreases |a|
  {
    FirstIndexMore'(a);
    var k := FirstIndex(a, '\n');
    FirstIndexMore(a, '\n', b);
    DropAppend(a, k + 1, b);
    DropAppend(a, k, b);
    var more := a[k + 1..];
    if more == "" {
      assert more + b == b;
    } else {
      SplitLinesAppend(more, b);
      var first, tail, sb := DropCr(a[..k]), SplitLines(more), SplitLines(b);
      assert SplitLines(a) == [first] + tail;
      assert SplitLines(a + b) == [first] + (Pop(tail) + sb);
      PopAppend(first, tail, sb);
    }
  }

  lemma PopAppend<T>(x: T, s: seq<T>, more: seq<T>)
    requires s != []
    ensures Pop([x] + s) + more == [x] + (Pop(s) + more)
  {}

  lemma {:induction false} FirstContentPrefix(la: seq<string>, lb: seq<string>, i: nat)
    requires i <= |la| && FirstContent(la + [""], i) < |la| + 1
    ensures FirstContent(la + lb, i) == FirstContent(la + [""], i)
    decreases |la| - i
  {
    if i < |la| {
      assert (la + lb)[i] == (la + [""])[i] == la[i];
      if IsBlank(la[i]) {
        FirstContentPrefix(la, lb, i + 1);
      }
    } else {
      assert IsBlank((la + [""])[i]);
    }
  }

  lemma {:induction false} FirstContentSuffix(la: seq<string>, lb: seq<string>, i: nat)
    requires i <= |lb|
    ensures FirstContent(la + lb, |la| + i) == |la| + FirstContent(lb, i)
    decreases |lb| - i
  {
    if i < |lb| {
      assert (la + lb)[|la| + i] == lb[i];
      FirstContentSuffix(la, lb, i + 1);
    }
  }

  lemma IssueInFront(la: seq<string>, lb: seq<string>, i: nat)
    requires Coherent(la + [""]) && i < |la|
    ensures BlockIssue(la + lb, i).None?
  {
    assert BlockIssue(la + [""], i).None?;
    assert (la + [""])[i] == (la + lb)[i] == la[i];
    if OpensBlock(la[i]) {
      FirstContentPrefix(la, lb, i + 1);
      ContentNotLast(la, i + 1);
      var body := FirstContent(la + lb, i + 1);
      assert (la + [""])[body] == (la + lb)[body];
    }
  }

  lemma IssueBehind(la: seq<string>, lb: seq<string>, i: nat)
    requires i < |lb|
    ensures BlockIssue(la + lb, |la| + i) == BlockIssue(lb, i)
  {
    assert (la + lb)[|la| + i] == lb[i];
    FirstContentSuffix(la, lb, i + 1);
    var body := FirstContent(lb, i + 1);
    assert body < |lb| ==> (la + lb)[|la| + body] == lb[body];
  }

  lemma {:induction false} ContentNotLast(la: seq<string>, i: nat)
    requires i <= |la|
    ensures FirstContent(la + [""], i) != |la|
    decreases |la| - i
  {
    if i < |la| {
      ContentNotLast(la, i + 1);
    } else {
      assert IsBlank((la + [""])[i]);
    }
  }

  /** An issue further down. */
  function Down(issue: Option<(Issue, nat)>, n: nat): Option<(Issue, nat)> {
    match issue
    case None => None
    case Some((reason, line)) => Some((reason, n + line))
  }

  lemma {:induction false} FirstIssueSuffix(la: seq<string>, lb: seq<string>, i: nat)
    requires i <= |lb|
    ensures FirstIssue(la + lb, |la| + i) == Down(FirstIssue(lb, i), |la|)
    decreases |lb| - i
  {
    if i < |lb| {
      IssueBehind(la, lb, i);
      FirstIssueSuffix(la, lb, i + 1);
    }
  }

  lemma {:induction false} FirstIssuePrefix(la: seq<string>, lb: seq<string>, i: nat)
    requires Coherent(la + [""]) && i <= |la|
    ensures FirstIssue(la + lb, i) == FirstIssue(la + lb, |la|)
    decreases |la| - i
  {
    if i < |la| {
      IssueInFront(la, lb, i);
      FirstIssuePrefix(la, lb, i + 1);
    }
  }

  lemma FirstIssueAppend(la: seq<string>, lb: seq<string>)
    requires Coherent(la + [""])
    ensures FirstIssue(la + lb, 0) == Down(FirstIssue(lb, 0), |la|)
  {
    FirstIssuePrefix(la, lb, 0);
    FirstIssueSuffix(la, lb, 0);
  }

  lemma NewlinesFrom(a: string, k: nat)
    requires k < |a| && '\n' !in a[..k] && a[k] == '\n'
    ensures Newlines(a) == 1 + Newlines(a[k + 1..])
  {
    AroundChar(a, k);
    NewlinesAppend(a[..k], [a[k]] + a[k + 1..]);
    NewlinesAppend([a[k]], a[k + 1..]);
    NewlinesZero(a[..k]);
    assert [a[k]][..0] == "" && Newlines([a[k]]) == 1;
  }

  lemma {:induction false} LinesCount(a: string)
    requires EndsLine(a)
    ensures |SplitLines(a)| == 1 + Newlines(a)
    decreases |a|
  {
    FirstIndexMore'(a);
    var k := FirstIndex(a, '\n');
    FirstIndexFirst(a, '\n');
    NewlinesFrom(a, k);
    if a[k + 1..] != "" {
      LinesCount(a[k + 1..]);
    }
  }

  // ----- the main result -----

  /** The scanner reads all of `a` in `end` rounds. */
  predicate ReadsAll(spec: LanguageSpec, a: string, end: nat) {
    match After(spec, a, START, end)
    case Stop(_) => false
    case Next(rest, cfg) => rest == "" && cfg.stack == [Code] && cfg.brackets == []
  }

  /** What an accepted front leaves: the scanner as it began, `d` lines later, which are the lines in front but for the
      escaped newlines that were stepped over. */
  lemma FrontRead(spec: LanguageSpec, a: string) returns (d: nat, end: nat)
    requires Scan(spec, a, START).Accept?
    ensures ReadsAll(spec, a, end) && d + Skipped(spec, a, end) == Newlines(a) && EndLine(spec, a, START) == 1 + d
  {
    end := LastRound(spec, a, 0);
    AlwaysInShape(spec, a, end);
    var m := After(spec, a, START, end);
    StepKeepsShape(spec, m.rest, m.cfg);
    CounterIs(spec, a, end, m.rest, m.cfg);
    assert a[..|a|] == a;
    LineForward(spec, a, START);
    d := m.cfg.line - 1;
  }

  function IsScanned(issue: Issue): bool {
    !issue.NoBodyAtEof? && !issue.NoIndentedBody?
  }

  /** The verdict on a text that stands behind others: the same, with the same reason, on a line further down. */
  function MovedResult(r: ValidationResult, d: nat, front: nat): ValidationResult {
    match r
    case Valid(validator) => Valid(validator)
    case Invalid(validator, issue, line) => Invalid(validator, MovedIssue(issue, d), line + if IsScanned(issue) then d else front)
  }

  /** The scanner's verdict on the whole. */
  lemma ScanPrepended(spec: LanguageSpec, a: string, b: string) returns (d: nat, end: nat)
    requires EndsLine(a) && Scan(spec, a, START).Accept?
    ensures Scan(spec, a + b, START) == MovedVerdict(Scan(spec, b, START), d)
    ensures ReadsAll(spec, a, end) && d + Skipped(spec, a, end) == Newlines(a)
  {
    d, end := FrontRead(spec, a);
    ScanLocal(spec, a, START, b);
    ScanLater(spec, b, START, d);
  }

  /** A block that validates and ends its last line can stand in front of any text, in every language: the verdict on the
      whole is the verdict on that text, with the same reason, moved down by the lines of the block; what the scanner
      reports lags by the escaped newlines of the block, and what the indentation check reports does not. */
  lemma PrependKeepsVerdict(a: string, b: string, language: string) returns (d: nat, end: nat)
    requires EndsLine(a) && StructuralVerdict(a, language).Valid?
    ensures StructuralVerdict(a + b, language) == MovedResult(StructuralVerdict(b, language), d, Newlines(a))
    ensures !SpecFor(language).family.Unknown? ==> ReadsAll(SpecFor(language), a, end) && d + Skipped(SpecFor(language), a, end) == Newlines(a)
  {
    var spec := SpecFor(language);
    d, end := 0, 0;
    if !spec.family.Unknown? {
      d, end := ScanPrepended(spec, a, b);
      ScannedIssue(spec, b);
      if spec.checkIndentation {
        NoIssueInFront(spec, a);
        IndentationMoves(a, b);
      }
      ResultMoves(spec, a + b, b, Scan(spec, a + b, START), Scan(spec, b, START), d, Newlines(a));
    }
  }

  lemma NoIssueInFront(spec: LanguageSpec, a: string)
    requires spec.checkIndentation && IndentVerdict(spec, a).Valid?
    ensures FirstIssue(SplitLines(a), 0).None?
  {}

  /** The answer to a text that the scanner has judged. */
  function Judged(spec: LanguageSpec, content: string, verdict: Verdict): ValidationResult {
    match verdict
    case Reject(issue, line) => Invalid(Structural, issue, line)
    case Accept => IndentVerdict(spec, content)
  }

  lemma ResultMoves(spec: LanguageSpec, whole: string, b: string, on: Verdict, off: Verdict, d: nat, front: nat)
    requires on == MovedVerdict(off, d) && (off.Reject? ==> IsScanned(off.issue))
    requires spec.checkIndentation ==> FirstIssue(SplitLines(whole), 0) == Down(FirstIssue(SplitLines(b), 0), front)
    ensures Judged(spec, whole, on) == MovedResult(Judged(spec, b, off), d, front)
  {
    if off.Accept? && spec.checkIndentation {
      FirstIssueFound(SplitLines(b), 0);
      OfIndentation(SplitLines(b));
    }
  }

  lemma OfIndentation(lines: seq<string>)
    ensures match FirstIssue(lines, 0)
            case None => true
            case Some((issue, _)) => issue.NoBodyAtEof? || issue.NoIndentedBody?
  {
    FirstIssueFound(lines, 0);
  }

  /** What the scanner rejects it rejects for a reason of its own. */
  lemma ScannedIssue(spec: LanguageSpec, b: string)
    ensures match Scan(spec, b, START)
            case Accept => true
            case Reject(issue, _) => IsScanned(issue)
  {
    match Scan(spec, b, START) {
      case Accept =>
      case Reject(issue, line) => var end := EndIs(spec, b, issue, line);
    }
  }

  lemma IndentationMoves(a: string, b: string)
    requires EndsLine(a) && FirstIssue(SplitLines(a), 0).None?
    ensures FirstIssue(SplitLines(a + b), 0) == Down(FirstIssue(SplitLines(b), 0), Newlines(a))
  {
    SplitLinesAppend(a, b);
    FrontIsCoherent(a);
    FirstIssueAppend(Pop(SplitLines(a)), SplitLines(b));
  }

  lemma FrontIsCoherent(a: string)
    requires EndsLine(a) && FirstIssue(SplitLines(a), 0).None?
    ensures Coherent(Pop(SplitLines(a)) + [""]) && |Pop(SplitLines(a))| == Newlines(a)
  {
    SplitLinesAppend(a, "");
    assert a + "" == a;
    LinesCount(a);
    FirstIssueIs(SplitLines(a), 0);
  }
}
