/** What the structural validator answers: a character scanner over a context stack and a bracket stack, and
    the indentation check (packages/apply/src/validate.ts). `Scan` says what the scanner does to the rest of
    the text. The loops are in Scanner.dfy, what the accepted texts are is proved in GrammarFacts.dfy. */
module Validate {
  import opened Text

  datatype Family = CLike | PythonLike | JsonLike | Unknown

  datatype RawSpec = LanguageSpec(
    family: Family,
    lineComments: seq<string>,
    blockComment: Option<(string, string)>,
    quotes: string,
    multilineQuotes: seq<string>,
    templates: bool,
    checkBrackets: bool,
    checkIndentation: bool)

  const C_LIKE := LanguageSpec(CLike, ["//"], Some(("/*", "*/")), "\"'", [], true, true, false)
  const PYTHON := LanguageSpec(PythonLike, ["#"], None, "\"'", ["\"\"\"", "'''"], false, true, true)
  const JSON := LanguageSpec(JsonLike, [], None, "\"", [], false, true, false)
  const SHELL := LanguageSpec(CLike, ["#"], None, "\"'", [], false, false, false)
  const UNKNOWN := LanguageSpec(Unknown, [], None, "", [], false, false, false)

  const C_LIKE_EXTENSIONS := [
    "ts", "tsx", "mts", "cts", "js", "jsx", "mjs", "cjs", "java", "c", "h", "cc", "cpp", "hpp", "cs", "go",
    "rs", "swift", "kt", "kts", "scala", "php", "dart", "jsonc"]

  function SpecFor(language: string): LanguageSpec {
    if language in C_LIKE_EXTENSIONS then C_LIKE
    else if language in ["py", "pyi"] then PYTHON
    else if language == "json" then JSON
    else if language in ["sh", "bash", "zsh"] then SHELL
    else UNKNOWN
  }

  /** What the scanner and the proofs need of a specification; every one of the table has it. */
  predicate Usable(spec: RawSpec) {
    && (spec.templates ==> spec.checkBrackets)
    && MarksOk(spec.lineComments) && MarksOk(spec.multilineQuotes)
    && (spec.blockComment.Some? ==> MarkOk(spec.blockComment.value.0) && MarkOk(spec.blockComment.value.1))
    && '\n' !in spec.quotes && '\\' !in spec.quotes
  }

  predicate MarkOk(mark: string) {
    mark != "" && '\n' !in mark && mark[0] != '\\'
  }

  predicate MarksOk(marks: seq<string>) {
    marks == [] || (MarkOk(marks[0]) && MarksOk(marks[1..]))
  }

  type LanguageSpec = spec: RawSpec | Usable(spec) witness UNKNOWN

  datatype Ctx = Code | Str(delim: string, multiline: bool) | Template | Interp

  datatype Bracket = Bracket(ch: char, line: nat, opensInterp: bool)

  datatype Issue =
    | UnterminatedString
    | UnterminatedBlockComment
    | UnmatchedClosing(ch: char)
    | MismatchedBracket(open: char, openedAt: nat, ch: char)
    | UnterminatedAtEof(template: bool)
    | Unclosed(ch: char, openedAt: nat)
    | NoBodyAtEof
    | NoIndentedBody

  datatype Validator = TreeSitter | Structural | NoValidator

  datatype ValidationResult = Valid(validator: Validator) | Invalid(validator: Validator, issue: Issue, line: nat)

  /** The scanner's mutable state, apart from its position. */
  datatype Config = Config(stack: seq<Ctx>, brackets: seq<Bracket>, line: nat)

  datatype Verdict = Accept | Reject(issue: Issue, line: nat)

  /** What stands at the front of a text in code context. */
  datatype Lead = Newline | BlockOpen | LineMark | MultiQuote(mark: string) | Backtick | Quote | Opener | Closer | Other

  function Pop<T>(s: seq<T>): seq<T> {
    if s == [] then [] else s[..|s| - 1]
  }

  function Top<T>(s: seq<T>): Option<T> {
    if s == [] then None else Some(s[|s| - 1])
  }

  /** The text from an offset that may lie past its end. */
  function Tail(s: string, k: nat): string {
    if k <= |s| then s[k..] else ""
  }

  function Closing(open: char): char {
    if open == '(' then ')' else if open == '[' then ']' else '}'
  }

  function Opening(close: char): char {
    if close == ')' then '(' else if close == ']' then '[' else '{'
  }

  /** The first of `marks` that `s` starts with. */
  function FirstMark(marks: seq<string>, s: string): (r: Option<string>)
    requires MarksOk(marks)
    ensures r.Some? ==> MarkOk(r.value) && r.value <= s
  {
    if marks == [] then None
    else if marks[0] <= s then Some(marks[0])
    else FirstMark(marks[1..], s)
  }

  /** The tests of the code context, in the scanner's order. */
  function LeadOf(spec: LanguageSpec, s: string): (lead: Lead)
    requires s != ""
    ensures lead.MultiQuote? ==> MarkOk(lead.mark) && lead.mark <= s
  {
    if s[0] == '\n' then Newline
    else if spec.blockComment.Some? && spec.blockComment.value.0 <= s then BlockOpen
    else if FirstMark(spec.lineComments, s).Some? then LineMark
    else match FirstMark(spec.multilineQuotes, s)
      case Some(mark) => MultiQuote(mark)
      case None =>
        if spec.templates && s[0] == '`' then Backtick
        else if s[0] in spec.quotes then Quote
        else if spec.checkBrackets && s[0] in "([{" then Opener
        else if spec.checkBrackets && s[0] in ")]}" then Closer
        else Other
  }

  function AtEnd(spec: LanguageSpec, cfg: Config): Verdict {
    var top := Top(cfg.stack);
    if top.Some? && !top.value.Code? then Reject(UnterminatedAtEof(top.value.Template?), cfg.line)
    else if spec.checkBrackets && cfg.brackets != [] then
      Reject(Unclosed(cfg.brackets[0].ch, cfg.brackets[0].line), cfg.brackets[0].line)
    else Accept
  }

  /** One round of the scanner's loop: it stops with a verdict or goes on behind what it read. */
  datatype Move = Stop(verdict: Verdict) | Next(rest: string, cfg: Config)

  function Step(spec: LanguageSpec, s: string, cfg: Config): (m: Move)
    ensures m.Next? ==> |m.rest| < |s|
  {
    var Config(stack, brackets, line) := cfg;
    var top := Top(stack);
    if s == "" then Stop(AtEnd(spec, cfg))
    else if s[0] == '\n' then
      if top.Some? && top.value.Str? && !top.value.multiline then Stop(Reject(UnterminatedString, line + 1))
      else Next(s[1..], Config(stack, brackets, line + 1))
    else match top
      case None => Stop(AtEnd(spec, cfg))
      case Some(Str(delim, multiline)) =>
        if s[0] == '\\' then Next(Tail(s, 2), cfg)
        else if multiline then
          if delim <= s && delim != "" then Next(s[|delim|..], Config(Pop(stack), brackets, line))
          else Next(s[1..], cfg)
        else if [s[0]] == delim then Next(s[1..], Config(Pop(stack), brackets, line))
        else Next(s[1..], cfg)
      case Some(Template) =>
        if s[0] == '\\' then Next(Tail(s, 2), cfg)
        else if "${" <= s then Next(s[2..], Config(stack + [Interp], brackets + [Bracket('{', line, true)], line))
        else if s[0] == '`' then Next(s[1..], Config(Pop(stack), brackets, line))
        else Next(s[1..], cfg)
      case _ => CodeMove(spec, s, cfg)
  }

  /** The same, for a text that starts with a block comment. */
  function CommentMove(open: string, close: string, s: string, cfg: Config): (m: Move)
    requires s != "" && open != "" && open <= s
    ensures m.Next? ==> |m.rest| < |s|
  {
    match Find(s[|open|..], close)
    case None => Stop(Reject(UnterminatedBlockComment, cfg.line))
    case Some(k) => Next(s[|open| + k + |close|..], cfg.(line := cfg.line + Newlines(s[..|open| + k])))
  }

  /** The same, for a text that starts inside code. */
  function CodeMove(spec: LanguageSpec, s: string, cfg: Config): (m: Move)
    requires s != "" && s[0] != '\n'
    ensures m.Next? ==> |m.rest| < |s|
  {
    var Config(stack, brackets, line) := cfg;
    match LeadOf(spec, s)
    case BlockOpen => CommentMove(spec.blockComment.value.0, spec.blockComment.value.1, s, cfg)
    case LineMark => Next(s[FirstIndex(s, '\n')..], cfg)
    case MultiQuote(mark) => Next(s[|mark|..], cfg.(stack := stack + [Str(mark, true)]))
    case Backtick => Next(s[1..], cfg.(stack := stack + [Template]))
    case Quote => Next(s[1..], cfg.(stack := stack + [Str([s[0]], false)]))
    case Opener => Next(s[1..], cfg.(brackets := brackets + [Bracket(s[0], line, false)]))
    case Closer => CloserMove(s, cfg)
    case _ => Next(s[1..], cfg)
  }

  /** A closing bracket ends what the last one that is open began. */
  function CloserMove(s: string, cfg: Config): (m: Move)
    requires s != ""
    ensures m.Next? ==> |m.rest| < |s|
  {
    match Top(cfg.brackets)
    case None => Stop(Reject(UnmatchedClosing(s[0]), cfg.line))
    case Some(last) =>
      if last.ch != Opening(s[0]) then Stop(Reject(MismatchedBracket(last.ch, last.line, s[0]), cfg.line))
      else Next(s[1..], Config(if last.opensInterp then Pop(cfg.stack) else cfg.stack, Pop(cfg.brackets), cfg.line))
  }

  /** What the scanner answers when `s` is left to read. */
  function Scan(spec: LanguageSpec, s: string, cfg: Config): Verdict
    decreases |s|
  {
    match Step(spec, s, cfg)
    case Stop(verdict) => verdict
    case Next(rest, cfg') => Scan(spec, rest, cfg')
  }

  const START := Config([Code], [], 1)

  // ----- indentation -----

  /** `.replace(/#.*$/, '')`: a comment is cut only where no line terminator follows it. */
  function StripComment(line: string): string {
    if line == "" then ""
    else if line[0] == '#' && forall c <- line :: c !in "\n\r" && c != '\U{2028}' && c != '\U{2029}' then ""
    else [line[0]] + StripComment(line[1..])
  }

  predicate OpensBlock(line: string) {
    var stripped := TrimEnd(StripComment(line));
    stripped != "" && stripped[|stripped| - 1] == ':'
  }

  function Indent(line: string): nat {
    |LeadingWhitespace(line)|
  }

  /** What is wrong with the block that line `i` opens, if it opens one. */
  function BlockIssue(lines: seq<string>, i: nat): Option<Issue>
    requires i < |lines|
  {
    var body := FirstContent(lines, i + 1);
    if !OpensBlock(lines[i]) then None
    else if body >= |lines| then Some(NoBodyAtEof)
    else if Indent(lines[body]) <= Indent(lines[i]) then Some(NoIndentedBody)
    else None
  }

  /** Every block opener is followed by a deeper line. */
  ghost predicate Coherent(lines: seq<string>) {
    forall i :: 0 <= i < |lines| ==> BlockIssue(lines, i).None?
  }

  /** The first wrong line from `i` on, with what is wrong and its number. */
  function FirstIssue(lines: seq<string>, i: nat): Option<(Issue, nat)>
    decreases |lines| - i
  {
    if i >= |lines| then None
    else match BlockIssue(lines, i)
      case Some(issue) => Some((issue, i + 1))
      case None => FirstIssue(lines, i + 1)
  }

  lemma {:induction false} FirstIssueFound(lines: seq<string>, i: nat)
    ensures match FirstIssue(lines, i)
            case None => true
            case Some((issue, line)) => i < line <= |lines| && BlockIssue(lines, line - 1) == Some(issue)
    decreases |lines| - i
  {
    if i < |lines| && BlockIssue(lines, i).None? {
      FirstIssueFound(lines, i + 1);
    }
  }

  lemma {:induction false} NoIssueBefore(lines: seq<string>, i: nat, k: nat)
    requires i <= k < |lines|
    requires match FirstIssue(lines, i) case None => true case Some((issue, line)) => k < line - 1
    ensures BlockIssue(lines, k).None?
    decreases |lines| - i
  {
    if i < k && BlockIssue(lines, i).None? {
      NoIssueBefore(lines, i + 1, k);
    }
  }

  /** It is the first issue there is. */
  lemma FirstIssueIs(lines: seq<string>, i: nat)
    ensures match FirstIssue(lines, i)
            case None => forall k :: i <= k < |lines| ==> BlockIssue(lines, k).None?
            case Some((issue, line)) =>
              && i < line <= |lines| && BlockIssue(lines, line - 1) == Some(issue)
              && forall k :: i <= k < line - 1 ==> BlockIssue(lines, k).None?
  {
    FirstIssueFound(lines, i);
    forall k: nat | i <= k < |lines| && match FirstIssue(lines, i) case None => true case Some((issue, line)) => k < line - 1
      ensures BlockIssue(lines, k).None?
    {
      NoIssueBefore(lines, i, k);
    }
  }

  // ----- the verdict -----

  /** The verdict of the structural validator: what it answers and where it points. */
  function StructuralVerdict(content: string, language: string): ValidationResult {
    var spec := SpecFor(language);
    if spec.family.Unknown? then Valid(NoValidator)
    else match Scan(spec, content, START)
      case Reject(issue, line) => Invalid(Structural, issue, line)
      case Accept => IndentVerdict(spec, content)
  }

  /** The verdict on a text that the scanner accepts. */
  function IndentVerdict(spec: LanguageSpec, content: string): ValidationResult {
    if !spec.checkIndentation then Valid(Structural)
    else match FirstIssue(SplitLines(content), 0)
      case None => Valid(Structural)
      case Some((issue, line)) => Invalid(Structural, issue, line)
  }
}
