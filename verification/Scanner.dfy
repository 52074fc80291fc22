/** The loops of the structural validator (packages/apply/src/validate.ts), each against its specification in
    Validate.dfy. */
module Scanner {
  import opened Text
  import opened Validate

  /** One character inside a string or a template. */
  method StringStep(spec: LanguageSpec, content: string, i: nat, stack: seq<Ctx>, brackets: seq<Bracket>, line: nat)
    returns (next: nat, stack': seq<Ctx>, brackets': seq<Bracket>)
    requires i < |content| && content[i] != '\n'
    requires stack != [] && (Top(stack).value.Str? || Top(stack).value.Template?)
    ensures i < next
    ensures Step(spec, content[i..], Config(stack, brackets, line)) == Next(Tail(content, next), Config(stack', brackets', line))
  {
    var ch, top := content[i], stack[|stack| - 1];
    ghost var s := content[i..];
    next, stack', brackets' := i + 1, stack, brackets;
    if ch == '\\' {
      next := i + 2;
    } else if top.Template? {
      if ch == '$' && i + 1 < |content| && content[i + 1] == '{' {
        assert "${" <= s;
        stack' := stack + [Interp];
        brackets' := brackets + [Bracket('{', line, true)];
        next := i + 2;
      } else if ch == '`' {
        stack' := Pop(stack);
      }
    } else if top.multiline {
      if top.delim != "" && top.delim <= content[i..] {
        stack' := Pop(stack);
        next := i + |top.delim|;
      }
    } else if [ch] == top.delim {
      stack' := Pop(stack);
    }
    assert next <= |content| ==> content[next..] == s[next - i..];
  }

  /** A block comment: where it ends, if it does, and the line there. */
  method BlockCommentStep(spec: LanguageSpec, content: string, i: nat, line: nat, ghost stack: seq<Ctx>, ghost brackets: seq<Bracket>)
    returns (end: Option<nat>, line': nat)
    requires i < |content| && content[i] != '\n' && LeadOf(spec, content[i..]).BlockOpen?
    ensures CodeMove(spec, content[i..], Config(stack, brackets, line)) ==
            match end
            case None => Stop(Reject(UnterminatedBlockComment, line))
            case Some(next) => Next(Tail(content, next), Config(stack, brackets, line'))
    ensures end.Some? ==> i < end.value
  {
    var (open, close) := spec.blockComment.value;
    ghost var s := content[i..];
    assert content[i + |open|..] == s[|open|..];
    var found := Find(content[i + |open|..], close);
    if found.None? {
      return None, line;
    }
    var endIdx := i + |open| + found.value;
    line' := CountNewlines(content, i, endIdx, line);
    assert content[i..endIdx] == s[..|open| + found.value];
    assert content[endIdx + |close|..] == s[|open| + found.value + |close|..];
    end := Some(endIdx + |close|);
  }

  /** A bracket of code. */
  method BracketStep(spec: LanguageSpec, content: string, i: nat, stack: seq<Ctx>, brackets: seq<Bracket>, line: nat)
    returns (problem: Option<Issue>, stack': seq<Ctx>, brackets': seq<Bracket>)
    requires i < |content| && content[i] != '\n'
    requires LeadOf(spec, content[i..]) == if content[i] in "([{" then Opener else Closer
    ensures CodeMove(spec, content[i..], Config(stack, brackets, line)) ==
            match problem
            case Some(issue) => Stop(Reject(issue, line))
            case None => Next(content[i..][1..], Config(stack', brackets', line))
  {
    var ch := content[i];
    problem, stack', brackets' := None, stack, brackets;
    if ch in "([{" {
      brackets' := brackets + [Bracket(ch, line, false)];
    } else {
      if brackets == [] {
        return Some(UnmatchedClosing(ch)), stack', brackets';
      }
      var last := brackets[|brackets| - 1];
      brackets' := Pop(brackets);
      if last.ch != Opening(ch) {
        return Some(MismatchedBracket(last.ch, last.line, ch)), stack', brackets';
      }
      if last.opensInterp {
        stack' := Pop(stack);
      }
    }
  }

  /** One character of code that starts no comment and no longer quote. */
  method CharStep(spec: LanguageSpec, content: string, i: nat, stack: seq<Ctx>, brackets: seq<Bracket>, line: nat)
    returns (problem: Option<Issue>, stack': seq<Ctx>, brackets': seq<Bracket>)
    requires i < |content| && content[i] != '\n'
    requires var lead := LeadOf(spec, content[i..]); !lead.BlockOpen? && !lead.LineMark? && !lead.MultiQuote?
    ensures CodeMove(spec, content[i..], Config(stack, brackets, line)) ==
            match problem
            case Some(issue) => Stop(Reject(issue, line))
            case None => Next(content[i..][1..], Config(stack', brackets', line))
  {
    var ch := content[i];
    problem, stack', brackets' := None, stack, brackets;
    if spec.templates && ch == '`' {
      stack' := stack + [Template];
    } else if ch in spec.quotes {
      stack' := stack + [Str([ch], false)];
    } else if spec.checkBrackets && ch in "([{)]}" {
      problem, stack', brackets' := BracketStep(spec, content, i, stack, brackets, line);
    }
  }

  /** One token of code that is no block comment. */
  method CodeStep(spec: LanguageSpec, content: string, i: nat, stack: seq<Ctx>, brackets: seq<Bracket>, line: nat)
    returns (problem: Option<Issue>, next: nat, stack': seq<Ctx>, brackets': seq<Bracket>)
    requires i < |content| && content[i] != '\n'
    requires !LeadOf(spec, content[i..]).BlockOpen?
    ensures i < next
    ensures CodeMove(spec, content[i..], Config(stack, brackets, line)) ==
            match problem
            case Some(issue) => Stop(Reject(issue, line))
            case None => Next(Tail(content, next), Config(stack', brackets', line))
  {
    problem, stack', brackets' := None, stack, brackets;
    var mark := FirstMark(spec.multilineQuotes, content[i..]);
    if FirstMark(spec.lineComments, content[i..]).Some? {
      next := i + FirstIndex(content[i..], '\n');
    } else if mark.Some? {
      stack' := stack + [Str(mark.value, true)];
      next := i + |mark.value|;
    } else {
      problem, stack', brackets' := CharStep(spec, content, i, stack, brackets, line);
      next := i + 1;
    }
    DropDrop(content, i, next - i);
  }

  /** One token of code. */
  method TokenStep(spec: LanguageSpec, content: string, i: nat, stack: seq<Ctx>, brackets: seq<Bracket>, line: nat)
    returns (problem: Option<Issue>, next: nat, stack': seq<Ctx>, brackets': seq<Bracket>, line': nat)
    requires i < |content| && content[i] != '\n'
    ensures problem.None? ==> i < next
    ensures CodeMove(spec, content[i..], Config(stack, brackets, line)) ==
            match problem
            case Some(issue) => Stop(Reject(issue, line))
            case None => Next(Tail(content, next), Config(stack', brackets', line'))
  {
    if spec.blockComment.Some? && spec.blockComment.value.0 <= content[i..] {
      var end;
      end, line' := BlockCommentStep(spec, content, i, line, stack, brackets);
      problem := if end.None? then Some(UnterminatedBlockComment) else None;
      next := if end.None? then i else end.value;
      stack', brackets' := stack, brackets;
    } else {
      problem, next, stack', brackets' := CodeStep(spec, content, i, stack, brackets, line);
      line' := line;
    }
  }

  method CountNewlines(content: string, from: nat, to: nat, line: nat) returns (line': nat)
    requires from <= to <= |content|
    ensures line' == line + Newlines(content[from..to])
  {
    line' := line;
    for k := from to to
      invariant line' == line + Newlines(content[from..k])
    {
      assert content[from..k + 1][..k - from] == content[from..k];
      if content[k] == '\n' {
        line' := line' + 1;
      }
    }
  }

  method ValidateStructure(content: string, language: string) returns (r: ValidationResult)
    ensures r == StructuralVerdict(content, language)
  {
    var spec := SpecFor(language);
    if spec.family.Unknown? {
      return Valid(NoValidator);
    }
    r := RunScanner(spec, content);
  }

  method RunScanner(spec: LanguageSpec, content: string) returns (r: ValidationResult)
    ensures match Scan(spec, content, START)
            case Reject(issue, at) => r == Invalid(Structural, issue, at)
            case Accept => r == IndentVerdict(spec, content)
  {
    var stack: seq<Ctx> := [Code];
    var brackets: seq<Bracket> := [];
    var line, i := 1, 0;
    ghost var verdict := Scan(spec, content, START);
    while i < |content|
      invariant Scan(spec, Tail(content, i), Config(stack, brackets, line)) == verdict
      decreases |content| - i
    {
      var top := Top(stack);
      if content[i] == '\n' {
        line := line + 1;
        if top.Some? && top.value.Str? && !top.value.multiline {
          return Invalid(Structural, UnterminatedString, line);
        }
        DropDrop(content, i, 1);
        i := i + 1;
      } else if top.None? {
        break;
      } else if !top.value.Code? && !top.value.Interp? {
        i, stack, brackets := StringStep(spec, content, i, stack, brackets, line);
      } else {
        var problem, next, stack', brackets', line' := TokenStep(spec, content, i, stack, brackets, line);
        if problem.Some? {
          return Invalid(Structural, problem.value, line);
        }
        i, stack, brackets, line := next, stack', brackets', line';
      }
    }
    r := Finish(spec, content, stack, brackets, line);
  }

  /** The checks at the end of the text. */
  method Finish(spec: LanguageSpec, content: string, stack: seq<Ctx>, brackets: seq<Bracket>, line: nat) returns (r: ValidationResult)
    ensures match AtEnd(spec, Config(stack, brackets, line))
            case Reject(issue, at) => r == Invalid(Structural, issue, at)
            case Accept => r == IndentVerdict(spec, content)
  {
    var finalTop := Top(stack);
    if finalTop.Some? && !finalTop.value.Code? {
      return Invalid(Structural, UnterminatedAtEof(finalTop.value.Template?), line);
    }
    if spec.checkBrackets && brackets != [] {
      return Invalid(Structural, Unclosed(brackets[0].ch, brackets[0].line), brackets[0].line);
    }
    if spec.checkIndentation {
      var issue := CheckIndentationCoherence(content);
      if issue.Some? {
        return Invalid(Structural, issue.value.0, issue.value.1);
      }
    }
    return Valid(Structural);
  }

  // ----- indentation -----

  method CheckIndentationCoherence(content: string) returns (found: Option<(Issue, nat)>)
    ensures found == FirstIssue(SplitLines(content), 0)
  {
    var lines := SplitLines(content);
    var i := 0;
    while i < |lines|
      invariant 0 <= i <= |lines|
      invariant FirstIssue(lines, 0) == FirstIssue(lines, i)
    {
      if OpensBlock(lines[i]) {
        var next := i + 1;
        while next < |lines| && IsBlank(lines[next])
          invariant i < next <= |lines|
          invariant FirstContent(lines, i + 1) == FirstContent(lines, next)
        {
          next := next + 1;
        }
        if next == |lines| {
          assert BlockIssue(lines, i) == Some(NoBodyAtEof);
          return Some((NoBodyAtEof, i + 1));
        }
        if Indent(lines[next]) <= Indent(lines[i]) {
          assert BlockIssue(lines, i) == Some(NoIndentedBody);
          return Some((NoIndentedBody, i + 1));
        }
      }
      i := i + 1;
    }
    return None;
  }
}
