/** Which line the scanner reports, and when it is the line of what is wrong (packages/apply/src/validate.ts). */
module LineReports {
  import opened Text
  import opened Validate
  import opened Framing

  /** The number of the line on which `rest`, what is left of a text, begins. */
  function LineOf(text: string, rest: string): nat
    requires |rest| <= |text|
  {
    1 + Newlines(text[..|text| - |rest|])
  }

  // ----- the counter -----

  /** The round that begins here steps over an escaped newline. */
  predicate SkipsNewline(s: string, cfg: Config) {
    "\\\n" <= s && cfg.stack != [] && (Top(cfg.stack).value.Str? || Top(cfg.stack).value.Template?)
  }

  /** How many of the first `n` rounds do. */
  function Skipped(spec: LanguageSpec, text: string, n: nat): nat {
    if n == 0 then 0
    else Skipped(spec, text, n - 1) + match After(spec, text, START, n - 1)
      case Next(rest, cfg) => if SkipsNewline(rest, cfg) then 1 else 0
      case Stop(_) => 0
  }

  /** What a round read, with the newlines it has counted. */
  predicate Counts(s: string, line: nat, rest: string, line': nat, skipped: nat) {
    |rest| <= |s| && rest == s[|s| - |rest|..] && line' + skipped == line + Newlines(s[..|s| - |rest|])
  }

  lemma ReadsPlain(s: string, line: nat, k: nat)
    requires k <= |s| && '\n' !in s[..k]
    ensures Counts(s, line, s[k..], line, 0)
  {
    NewlinesZero(s[..k]);
  }

  lemma ReadsMark(s: string, line: nat, mark: string)
    requires mark <= s && '\n' !in mark
    ensures Counts(s, line, s[|mark|..], line, 0)
  {
    assert s[..|mark|] == mark;
    ReadsPlain(s, line, |mark|);
  }

  lemma ReadsOne(s: string, line: nat)
    requires s != ""
    ensures Counts(s, line, s[1..], if s[0] == '\n' then line + 1 else line, 0)
  {
    assert s[..1] == [s[0]] && [s[0]][..0] == "";
    assert Newlines(s[..1]) == Newlines("") + if s[0] == '\n' then 1 else 0;
  }

  lemma ReadsEscape(s: string, line: nat)
    requires s != "" && s[0] == '\\'
    ensures Counts(s, line, Tail(s, 2), line, if "\\\n" <= s then 1 else 0)
  {
    if |s| == 1 {
      ReadsPlain(s, line, 1);
    } else {
      ReadsOne(s[1..], line);
      assert s[..2] == [s[0]] + [s[1]] && [s[0], s[1]][..1] == [s[0]] && [s[0]][..0] == "";
      assert Newlines([s[0]]) == Newlines("") == 0;
      assert Newlines(s[..2]) == Newlines([s[0]]) + if s[1] == '\n' then 1 else 0;
      assert "\\\n" <= s <==> s[1] == '\n';
    }
  }

  lemma ReadsTo(s: string, line: nat, from: nat, mark: string)
    requires Occurs(s, mark, from) && '\n' !in mark
    ensures Counts(s, line, s[from + |mark|..], line + Newlines(s[..from]), 0)
  {
    assert s[..from + |mark|] == s[..from] + mark;
    NewlinesAppend(s[..from], mark);
    NewlinesZero(mark);
  }

  lemma ReadsComment(open: string, close: string, s: string, cfg: Config)
    requires s != "" && open != "" && open <= s && '\n' !in close && CommentMove(open, close, s, cfg).Next?
    ensures var Next(rest, cfg') := CommentMove(open, close, s, cfg); Counts(s, cfg.line, rest, cfg'.line, 0)
  {
    FindOccurs(s[|open|..], close);
    OccursDropped(s, |open|, close, Find(s[|open|..], close).value);
    ReadsTo(s, cfg.line, |open| + Find(s[|open|..], close).value, close);
  }

  lemma OccursDropped(s: string, n: nat, needle: string, k: nat)
    requires n <= |s| && Occurs(s[n..], needle, k)
    ensures Occurs(s, needle, n + k)
  {
    SliceDrop(s, n, n + k, n + k + |needle|);
  }

  lemma CodeCounts(spec: LanguageSpec, s: string, cfg: Config)
    requires s != "" && s[0] != '\n' && CodeMove(spec, s, cfg).Next?
    ensures var Next(rest, cfg') := CodeMove(spec, s, cfg); Counts(s, cfg.line, rest, cfg'.line, 0)
  {
    match LeadOf(spec, s) {
      case BlockOpen => ReadsComment(spec.blockComment.value.0, spec.blockComment.value.1, s, cfg);
      case LineMark =>
        FirstIndexFirst(s, '\n');
        ReadsPlain(s, cfg.line, FirstIndex(s, '\n'));
      case MultiQuote(mark) => ReadsMark(s, cfg.line, mark);
      case _ => ReadsOne(s, cfg.line);
    }
  }

  lemma StringCounts(spec: LanguageSpec, s: string, cfg: Config)
    requires InShape(spec, cfg) && !Nested(cfg.stack) && s != "" && s[0] != '\n' && Step(spec, s, cfg).Next?
    ensures var Next(rest, cfg') := Step(spec, s, cfg);
            Counts(s, cfg.line, rest, cfg'.line, if SkipsNewline(s, cfg) then 1 else 0)
  {
    ReadsOne(s, cfg.line);
    if s[0] == '\\' {
      ReadsEscape(s, cfg.line);
    } else {
      match Top(cfg.stack).value {
        case Str(delim, _) => if delim <= s { ReadsMark(s, cfg.line, delim); }
        case Template => if "${" <= s { ReadsMark(s, cfg.line, "${"); }
        case _ =>
      }
    }
  }

  lemma StepCounts(spec: LanguageSpec, s: string, cfg: Config)
    requires InShape(spec, cfg) && Step(spec, s, cfg).Next?
    ensures var Next(rest, cfg') := Step(spec, s, cfg);
            Counts(s, cfg.line, rest, cfg'.line, if SkipsNewline(s, cfg) then 1 else 0)
  {
    if s[0] == '\n' {
      ReadsOne(s, cfg.line);
    } else if Nested(cfg.stack) {
      CodeCounts(spec, s, cfg);
    } else {
      StringCounts(spec, s, cfg);
    }
  }

  lemma CountsOn(text: string, s: string, line: nat, skipped: nat, rest: string, line': nat, more: nat)
    requires Counts(text, 1, s, line, skipped) && Counts(s, line, rest, line', more)
    ensures Counts(text, 1, rest, line', skipped + more)
  {
    var i, j := |text| - |s|, |s| - |rest|;
    DropDrop(text, i, j);
    assert text[..i + j] == text[..i] + text[i..][..j];
    NewlinesAppend(text[..i], s[..j]);
  }

  /** At every moment the counter lags behind the line by the escaped newlines that were stepped over, and by nothing
      else: it is right if and only if there was none. */
  lemma CounterIs(spec: LanguageSpec, text: string, n: nat, rest: string, cfg: Config)
    requires After(spec, text, START, n) == Next(rest, cfg)
    ensures |rest| <= |text| && rest == text[|text| - |rest|..]
    ensures cfg.line + Skipped(spec, text, n) == LineOf(text, rest)
    ensures cfg.line == LineOf(text, rest) <==> forall k | 0 <= k < n :: !SkipsAt(spec, text, k)
  {
    CounterCounts(spec, text, n);
    NoneSkippedIff(spec, text, n);
  }

  predicate SkipsAt(spec: LanguageSpec, text: string, k: nat) {
    match After(spec, text, START, k)
    case Next(rest, cfg) => SkipsNewline(rest, cfg)
    case Stop(_) => false
  }

  lemma {:induction false} NoneSkippedIff(spec: LanguageSpec, text: string, n: nat)
    ensures Skipped(spec, text, n) == 0 <==> forall k | 0 <= k < n :: !SkipsAt(spec, text, k)
  {
    if n > 0 {
      NoneSkippedIff(spec, text, n - 1);
      assert SkipsAt(spec, text, n - 1) <==> Skipped(spec, text, n) == Skipped(spec, text, n - 1) + 1;
    }
  }

  lemma CounterNext(spec: LanguageSpec, text: string, s: string, cfg: Config, skipped: nat)
    requires InShape(spec, cfg) && Step(spec, s, cfg).Next? && Counts(text, 1, s, cfg.line, skipped)
    ensures var Next(rest, cfg') := Step(spec, s, cfg);
            Counts(text, 1, rest, cfg'.line, skipped + if SkipsNewline(s, cfg) then 1 else 0)
  {
    StepCounts(spec, s, cfg);
    var Next(rest, cfg') := Step(spec, s, cfg);
    CountsOn(text, s, cfg.line, skipped, rest, cfg'.line, if SkipsNewline(s, cfg) then 1 else 0);
  }

  lemma CountedAtStart(text: string)
    ensures Counts(text, 1, text, 1, 0)
  {
    assert text[..0] == "" && text[0..] == text;
  }

  predicate Counted(text: string, m: Move, skipped: nat) {
    match m
    case Stop(_) => true
    case Next(rest, cfg) => Counts(text, 1, rest, cfg.line, skipped)
  }

  function SkippedBy(m: Move): nat {
    if m.Next? && SkipsNewline(m.rest, m.cfg) then 1 else 0
  }

  lemma CountedOn(spec: LanguageSpec, text: string, n: nat, m: Move, skipped: nat)
    requires m == After(spec, text, START, n) && Counted(text, m, skipped)
    ensures Counted(text, Onward(spec, m), skipped + SkippedBy(m))
  {
    AlwaysInShape(spec, text, n);
    if m.Next? && Step(spec, m.rest, m.cfg).Next? {
      CounterNext(spec, text, m.rest, m.cfg, skipped);
    }
  }

  function Onward(spec: LanguageSpec, m: Move): Move {
    match m
    case Stop(_) => m
    case Next(rest, cfg) => Step(spec, rest, cfg)
  }

  lemma RoundAfter(spec: LanguageSpec, text: string, n: nat, m: Move, k: nat)
    requires n > 0 && m == After(spec, text, START, n - 1) && k == Skipped(spec, text, n - 1)
    ensures After(spec, text, START, n) == Onward(spec, m) && Skipped(spec, text, n) == k + SkippedBy(m)
  {}

  lemma {:induction false} CounterCounts(spec: LanguageSpec, text: string, n: nat)
    ensures Counted(text, After(spec, text, START, n), Skipped(spec, text, n))
  {
    if n == 0 {
      CountedAtStart(text);
    } else {
      CounterCounts(spec, text, n - 1);
      CounterOn(spec, text, n);
    }
  }

  lemma CounterOn(spec: LanguageSpec, text: string, n: nat)
    requires n > 0 && Counted(text, After(spec, text, START, n - 1), Skipped(spec, text, n - 1))
    ensures Counted(text, After(spec, text, START, n), Skipped(spec, text, n))
  {
    var m, k := After(spec, text, START, n - 1), Skipped(spec, text, n - 1);
    RoundAfter(spec, text, n, m, k);
    CountedOn(spec, text, n - 1, m, k);
  }

  // ----- the line of an open bracket -----

  /** The round that begins here pushes this bracket. */
  predicate Opens(rest: string, b: Bracket) {
    if b.opensInterp then "${" <= rest && b.ch == '{' else rest != "" && rest[0] == b.ch
  }

  predicate Pushes(m: Move, stack: seq<Bracket>) {
    && m.Next? && stack != [] && m.cfg.brackets == Pop(stack)
    && Top(stack).value.line == m.cfg.line && Opens(m.rest, Top(stack).value)
  }

  predicate Holds(m: Move, stack: seq<Bracket>) {
    m.Next? && stack <= m.cfg.brackets
  }

  /** Round `m` pushed the top of `stack`, which has stayed up to round `n`. */
  ghost predicate OpenedAt(spec: LanguageSpec, text: string, m: nat, n: nat, stack: seq<Bracket>) {
    && m < n && Pushes(After(spec, text, START, m), stack)
    && forall k | m < k <= n :: Holds(After(spec, text, START, k), stack)
  }

  lemma StepPushes(spec: LanguageSpec, s: string, cfg: Config, stack: seq<Bracket>)
    requires stack != [] && Holds(Step(spec, s, cfg), stack)
    ensures stack <= cfg.brackets || Pushes(Next(s, cfg), stack)
  {
    var after := Step(spec, s, cfg).cfg.brackets;
    if |after| == |cfg.brackets| + 1 {
      assert Pop(after) == cfg.brackets;
    }
  }

  lemma PushedHere(spec: LanguageSpec, m: Move, stack: seq<Bracket>)
    requires stack != [] && Holds(Onward(spec, m), stack)
    ensures Holds(m, stack) || Pushes(m, stack)
  {
    if m.Next? {
      StepPushes(spec, m.rest, m.cfg, stack);
    }
  }

  lemma PushedAt(spec: LanguageSpec, text: string, n: nat, stack: seq<Bracket>) returns (held: bool)
    requires stack != [] && Holds(After(spec, text, START, n), stack)
    ensures n > 0
    ensures held ==> Holds(After(spec, text, START, n - 1), stack)
    ensures !held ==> Pushes(After(spec, text, START, n - 1), stack)
  {
    var m := After(spec, text, START, n - 1);
    held := Holds(m, stack);
    RoundAfter(spec, text, n, m, Skipped(spec, text, n - 1));
    PushedHere(spec, m, stack);
  }

  lemma JustOpened(spec: LanguageSpec, text: string, n: nat, stack: seq<Bracket>)
    requires n > 0 && Pushes(After(spec, text, START, n - 1), stack) && Holds(After(spec, text, START, n), stack)
    ensures OpenedAt(spec, text, n - 1, n, stack)
  {}

  lemma StillOpen(spec: LanguageSpec, text: string, m: nat, n: nat, stack: seq<Bracket>)
    requires n > 0 && OpenedAt(spec, text, m, n - 1, stack) && Holds(After(spec, text, START, n), stack)
    ensures OpenedAt(spec, text, m, n, stack)
  {}

  lemma {:induction false} OpenedSomewhere(spec: LanguageSpec, text: string, n: nat, stack: seq<Bracket>) returns (m: nat)
    requires stack != [] && Holds(After(spec, text, START, n), stack)
    ensures OpenedAt(spec, text, m, n, stack)
  {
    var held := PushedAt(spec, text, n, stack);
    if held {
      m := OpenedSomewhere(spec, text, n - 1, stack);
      StillOpen(spec, text, m, n, stack);
    } else {
      m := n - 1;
      JustOpened(spec, text, n, stack);
    }
  }

  // ----- the reported line -----

  /** The line counter where the scanner stops. */
  function EndLine(spec: LanguageSpec, s: string, cfg: Config): nat
    decreases |s|
  {
    match Step(spec, s, cfg)
    case Stop(_) => cfg.line
    case Next(rest, cfg') => EndLine(spec, rest, cfg')
  }

  lemma StepForward(spec: LanguageSpec, s: string, cfg: Config)
    ensures match Step(spec, s, cfg)
            case Stop(_) => true
            case Next(_, cfg') => cfg.line <= cfg'.line
  {}

  /** The counter never runs back. */
  lemma {:induction false} LineForward(spec: LanguageSpec, s: string, cfg: Config)
    ensures cfg.line <= EndLine(spec, s, cfg)
    decreases |s|
  {
    StepForward(spec, s, cfg);
    match Step(spec, s, cfg) {
      case Stop(_) =>
      case Next(rest, cfg') => LineForward(spec, rest, cfg');
    }
  }

  /** The round that stops the scanner. */
  lemma {:induction false} LastRound(spec: LanguageSpec, text: string, n: nat) returns (end: nat)
    requires After(spec, text, START, n).Next?
    ensures var Next(rest, cfg) := After(spec, text, START, n);
            && n <= end && Onward(spec, After(spec, text, START, end)) == Stop(Scan(spec, rest, cfg))
            && After(spec, text, START, end).Next? && After(spec, text, START, end).cfg.line == EndLine(spec, rest, cfg)
    decreases |After(spec, text, START, n).rest|
  {
    var Next(rest, cfg) := After(spec, text, START, n);
    if Step(spec, rest, cfg).Stop? {
      end := n;
    } else {
      end := LastRound(spec, text, n + 1);
    }
  }

  /** What stands where the scanner stops for this reason. */
  predicate StopsAt(spec: LanguageSpec, issue: Issue, rest: string) {
    match issue
    case UnterminatedString => rest != "" && rest[0] == '\n'
    case UnterminatedBlockComment => spec.blockComment.Some? && spec.blockComment.value.0 <= rest
    case UnmatchedClosing(ch) => rest != "" && rest[0] == ch
    case MismatchedBracket(_, _, ch) => rest != "" && rest[0] == ch
    case UnterminatedAtEof(_) => rest == ""
    case Unclosed(_, _) => rest == ""
    case _ => false
  }

  /** The line of the bracket that the reason names. */
  predicate NamesBracket(issue: Issue, brackets: seq<Bracket>) {
    match issue
    case MismatchedBracket(open, openedAt, _) => brackets != [] && Top(brackets).value.ch == open && Top(brackets).value.line == openedAt
    case Unclosed(ch, openedAt) => brackets != [] && brackets[0].ch == ch && brackets[0].line == openedAt
    case _ => true
  }

  /** An unterminated string is noticed at the newline behind it, which has been counted by then. */
  function Late(issue: Issue): nat {
    if issue.UnterminatedString? then 1 else 0
  }

  lemma StopIs(spec: LanguageSpec, s: string, cfg: Config, issue: Issue, line: nat)
    requires InShape(spec, cfg) && Step(spec, s, cfg) == Stop(Reject(issue, line))
    ensures StopsAt(spec, issue, s) && NamesBracket(issue, cfg.brackets)
    ensures if issue.Unclosed? then line == issue.openedAt else line == cfg.line + Late(issue)
  {}

  /** The scanner stops behind round `end` for this reason. */
  ghost predicate StopsBehind(spec: LanguageSpec, text: string, end: nat, issue: Issue, line: nat) {
    match After(spec, text, START, end)
    case Stop(_) => false
    case Next(rest, cfg) => Step(spec, rest, cfg) == Stop(Reject(issue, line)) && StopsAt(spec, issue, rest) && NamesBracket(issue, cfg.brackets)
  }

  lemma EndIs(spec: LanguageSpec, text: string, issue: Issue, line: nat) returns (end: nat)
    requires Scan(spec, text, START) == Reject(issue, line)
    ensures StopsBehind(spec, text, end, issue, line)
    ensures !issue.Unclosed? ==> line == After(spec, text, START, end).cfg.line + Late(issue)
    ensures issue.Unclosed? ==> line == issue.openedAt
  {
    end := LastRound(spec, text, 0);
    AlwaysInShape(spec, text, end);
    var m := After(spec, text, START, end);
    StopIs(spec, m.rest, m.cfg, issue, line);
  }

  /** Round `n` begins with `rest`; the line given there is right, `late` lines behind it, if and only if no escaped
      newline was stepped over before, and otherwise too small by as many as there were. */
  ghost predicate LineAt(spec: LanguageSpec, text: string, n: nat, rest: string, line: nat, late: nat) {
    && After(spec, text, START, n).Next? && rest == After(spec, text, START, n).rest
    && |rest| <= |text| && rest == text[|text| - |rest|..]
    && line + Skipped(spec, text, n) == LineOf(text, rest) + late
    && (line == LineOf(text, rest) + late <==> forall k | 0 <= k < n :: !SkipsAt(spec, text, k))
  }

  lemma LineIsAt(spec: LanguageSpec, text: string, n: nat, line: nat, late: nat) returns (rest: string)
    requires After(spec, text, START, n).Next? && line == After(spec, text, START, n).cfg.line + late
    ensures LineAt(spec, text, n, rest, line, late)
  {
    rest := After(spec, text, START, n).rest;
    CounterIs(spec, text, n, rest, After(spec, text, START, n).cfg);
  }

  /** The line a rejection reports is that of the place where the scanner stops or, for a bracket that is never closed,
      of the place where that bracket was opened; it lags by the escaped newlines before that place. */
  lemma ReportedLineIs(spec: LanguageSpec, text: string, issue: Issue, line: nat) returns (n: nat, end: nat, rest: string)
    requires Scan(spec, text, START) == Reject(issue, line)
    ensures StopsBehind(spec, text, end, issue, line)
    ensures if issue.Unclosed? then OpenedAt(spec, text, n, end, After(spec, text, START, end).cfg.brackets[..1]) else n == end
    ensures LineAt(spec, text, n, rest, line, Late(issue))
  {
    end := EndIs(spec, text, issue, line);
    n := end;
    if issue.Unclosed? {
      n := OpenedSomewhere(spec, text, end, After(spec, text, START, end).cfg.brackets[..1]);
    }
    rest := LineIsAt(spec, text, n, line, Late(issue));
  }

  /** The line at which a mismatched bracket is said to be open lags in the same way. */
  lemma OpenedLineIs(spec: LanguageSpec, text: string, issue: Issue, line: nat, end: nat) returns (n: nat, rest: string)
    requires issue.MismatchedBracket? && StopsBehind(spec, text, end, issue, line)
    ensures OpenedAt(spec, text, n, end, After(spec, text, START, end).cfg.brackets)
    ensures LineAt(spec, text, n, rest, issue.openedAt, 0)
  {
    n := OpenedSomewhere(spec, text, end, After(spec, text, START, end).cfg.brackets);
    rest := LineIsAt(spec, text, n, issue.openedAt, 0);
  }

  /** In a text without a backslash before a newline every reported line is right. */
  lemma NoneToSkip(spec: LanguageSpec, text: string, k: nat)
    requires Find(text, "\\\n").None?
    ensures !SkipsAt(spec, text, k)
  {
    var m := After(spec, text, START, k);
    if m.Next? {
      CounterIs(spec, text, k, m.rest, m.cfg);
      NoneBefore(text, "\\\n", |text| - |m.rest|);
      PrefixOccurs(text, |text| - |m.rest|, "\\\n");
    }
  }

  lemma PrefixOccurs(text: string, k: nat, needle: string)
    requires k <= |text|
    ensures needle <= text[k..] <==> Occurs(text, needle, k)
  {
    if |needle| <= |text| - k {
      SliceDrop(text, k, k, k + |needle|);
    }
  }

  lemma EscapedNewlineScanned(text: string)
    requires text == "\"\\\n\")"
    ensures Scan(C_LIKE, text, START) == Reject(UnmatchedClosing(')'), 1)
  {
    var s1, s2, s3 := "\\\n\")", "\")", ")";
    var inside := Config([Code, Str("\"", false)], [], 1);
    assert Step(C_LIKE, text, START) == Next(s1, inside) by {
      assert text[1..] == s1;
    }
    assert Step(C_LIKE, s1, inside) == Next(s2, inside) by {
      assert s1[2..] == s2;
    }
    assert Step(C_LIKE, s2, inside) == Next(s3, START) by {
      assert s2[1..] == s3;
    }
    assert Step(C_LIKE, s3, START) == Stop(Reject(UnmatchedClosing(')'), 1));
  }

  /** A string over two lines and a bracket behind it: the bracket is reported a line too early. */
  lemma EscapedNewlineMisleads(text: string)
    requires text == "\"\\\n\")"
    ensures StructuralVerdict(text, "ts") == Invalid(Structural, UnmatchedClosing(')'), 1)
    ensures text[4..] == ")" && LineOf(text, text[4..]) == 2
  {
    EscapedNewlineScanned(text);
    assert C_LIKE_EXTENSIONS[0] == "ts";
    SecondLine(text);
  }

  lemma SecondLine(text: string)
    requires |text| == 5 && '\n' !in text[..2] && text[2] == '\n' && text[3] != '\n'
    ensures LineOf(text, text[4..]) == 2
  {
    NewlinesZero(text[..2]);
    ReadsOne(text[2..], 1);
    NewlinesZero([text[3]]);
    assert text[..4] == text[..2] + text[2..][..1] + [text[3]];
    NewlinesAppend(text[..2], text[2..][..1]);
    NewlinesAppend(text[..2] + text[2..][..1], [text[3]]);
  }
}
