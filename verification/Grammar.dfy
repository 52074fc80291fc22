/** The language the structural validator accepts, as a grammar of parse trees: code, comments, strings,
    templates with `${code}`, and matched brackets. The two-stack scanner of Validate.dfy accepts exactly
    the texts that some well-formed tree prints to, and that tree is unique. */
module Grammar {
  import opened Text
  import opened Validate

  datatype Code =
    | End
    | Plain(c: char, next: Code)
    | BlockComment(body: string, next: Code)
    | LineComment(text: string, next: Code)
    | Literal(delim: string, multiline: bool, content: Body, next: Code)
    | TemplateLiteral(parts: Parts, next: Code)
    | Group(open: char, inner: Code, next: Code)

  /** The inside of a string. */
  datatype Body = BodyEnd | Char(c: char, next: Body) | Escape(c: char, next: Body)

  /** The inside of a template. */
  datatype Parts = PartsEnd | PartChar(c: char, next: Parts) | PartEscape(c: char, next: Parts) | Hole(code: Code, next: Parts)

  // ----- the text of a tree, followed by a text that comes after it -----

  function CodeText(spec: LanguageSpec, code: Code, after: string): string {
    match code
    case End => after
    case Plain(c, next) => [c] + CodeText(spec, next, after)
    case BlockComment(body, next) =>
      var (open, close) := if spec.blockComment.Some? then spec.blockComment.value else ("", "");
      open + (body + (close + CodeText(spec, next, after)))
    case LineComment(text, next) => text + CodeText(spec, next, after)
    case Literal(delim, _, content, next) => delim + BodyText(content, delim + CodeText(spec, next, after))
    case TemplateLiteral(parts, next) => "`" + PartsText(spec, parts, "`" + CodeText(spec, next, after))
    case Group(open, inner, next) => [open] + CodeText(spec, inner, [Closing(open)] + CodeText(spec, next, after))
  }

  function BodyText(body: Body, after: string): string {
    match body
    case BodyEnd => after
    case Char(c, next) => [c] + BodyText(next, after)
    case Escape(c, next) => "\\" + ([c] + BodyText(next, after))
  }

  function PartsText(spec: LanguageSpec, parts: Parts, after: string): string {
    match parts
    case PartsEnd => after
    case PartChar(c, next) => [c] + PartsText(spec, next, after)
    case PartEscape(c, next) => "\\" + ([c] + PartsText(spec, next, after))
    case Hole(code, next) => "${" + CodeText(spec, code, "}" + PartsText(spec, next, after))
  }

  // ----- well-formed trees -----

  /** `code` may stand in front of `after`: every token is the one that its own text, read together with
      what follows, starts with. */
  ghost predicate CodeOk(spec: LanguageSpec, code: Code, after: string) {
    match code
    case End => true
    case Plain(c, next) =>
      var lead := LeadOf(spec, CodeText(spec, code, after));
      (lead.Newline? || lead.Other?) && CodeOk(spec, next, after)
    case BlockComment(body, next) =>
      && spec.blockComment.Some?
      && ClosesOnce(body, spec.blockComment.value.1)
      && CodeOk(spec, next, after)
    case LineComment(text, next) =>
      var rest := CodeText(spec, next, after);
      && text != "" && '\n' !in text && LeadOf(spec, text + rest).LineMark?
      && (rest == "" || rest[0] == '\n')
      && CodeOk(spec, next, after)
    case Literal(delim, multiline, content, next) =>
      && delim != ""
      && (if multiline then LeadOf(spec, CodeText(spec, code, after)) == MultiQuote(delim)
          else |delim| == 1 && LeadOf(spec, CodeText(spec, code, after)).Quote?)
      && BodyOk(delim, multiline, content, delim + CodeText(spec, next, after))
      && CodeOk(spec, next, after)
    case TemplateLiteral(parts, next) =>
      && LeadOf(spec, CodeText(spec, code, after)).Backtick?
      && PartsOk(spec, parts, "`" + CodeText(spec, next, after))
      && CodeOk(spec, next, after)
    case Group(open, inner, next) =>
      var rest := [Closing(open)] + CodeText(spec, next, after);
      && LeadOf(spec, CodeText(spec, code, after)).Opener?
      && LeadOf(spec, rest).Closer?
      && CodeOk(spec, inner, rest)
      && CodeOk(spec, next, after)
  }

  /** The body of a block comment: its closing mark stands at its end and nowhere before. */
  ghost predicate ClosesOnce(body: string, close: string) {
    Find(body + close, close) == Some(|body|)
  }

  ghost predicate BodyOk(delim: string, multiline: bool, body: Body, after: string) {
    match body
    case BodyEnd => true
    case Char(c, next) =>
      && c != '\\' && (multiline || c != '\n')
      && !(delim <= BodyText(body, after))
      && BodyOk(delim, multiline, next, after)
    case Escape(c, next) => BodyOk(delim, multiline, next, after)
  }

  ghost predicate PartsOk(spec: LanguageSpec, parts: Parts, after: string) {
    match parts
    case PartsEnd => true
    case PartChar(c, next) =>
      && c != '\\' && c != '`' && !("${" <= PartsText(spec, parts, after))
      && PartsOk(spec, next, after)
    case PartEscape(c, next) => PartsOk(spec, next, after)
    case Hole(code, next) =>
      var rest := "}" + PartsText(spec, next, after);
      LeadOf(spec, rest).Closer? && CodeOk(spec, code, rest) && PartsOk(spec, next, after)
  }

  /** The texts of the grammar. */
  ghost predicate InGrammar(spec: LanguageSpec, text: string) {
    exists tree :: CodeOk(spec, tree, "") && CodeText(spec, tree, "") == text
  }

  // ----- reading a text by recursive descent -----

  datatype Parse<T> = Stuck | Read(tree: T, rest: string)

  /** Reads code up to a closing bracket or the end of the text. */
  function ReadCode(spec: LanguageSpec, s: string): (r: Parse<Code>)
    ensures r.Read? ==> |r.rest| <= |s| && (r.rest == "" || LeadOf(spec, r.rest).Closer?)
    decreases |s|, 1
  {
    if s == "" then Read(End, "")
    else match LeadOf(spec, s)
      case BlockOpen => ReadBlockComment(spec, s[|spec.blockComment.value.0|..])
      case LineMark => ReadLineComment(spec, s)
      case MultiQuote(mark) => ReadLiteral(spec, s, mark, true)
      case Quote => ReadLiteral(spec, s, [s[0]], false)
      case Backtick => ReadTemplate(spec, s)
      case Opener => ReadGroup(spec, s)
      case Closer => Read(End, s)
      case _ =>
        match ReadCode(spec, s[1..])
        case Stuck => Stuck
        case Read(next, rest) => Read(Plain(s[0], next), rest)
  }

  /** Reads from the inside of a block comment. */
  function ReadBlockComment(spec: LanguageSpec, s: string): (r: Parse<Code>)
    requires spec.blockComment.Some?
    ensures r.Read? ==> |r.rest| <= |s| && (r.rest == "" || LeadOf(spec, r.rest).Closer?)
    decreases |s|, 2
  {
    var close := spec.blockComment.value.1;
    match Find(s, close)
    case None => Stuck
    case Some(k) =>
      match ReadCode(spec, s[k + |close|..])
      case Stuck => Stuck
      case Read(next, rest) => Read(BlockComment(s[..k], next), rest)
  }

  function ReadLineComment(spec: LanguageSpec, s: string): (r: Parse<Code>)
    requires s != "" && s[0] != '\n'
    ensures r.Read? ==> |r.rest| <= |s| && (r.rest == "" || LeadOf(spec, r.rest).Closer?)
    decreases |s|, 0
  {
    var k := FirstIndex(s, '\n');
    match ReadCode(spec, s[k..])
    case Stuck => Stuck
    case Read(next, rest) => Read(LineComment(s[..k], next), rest)
  }

  function ReadLiteral(spec: LanguageSpec, s: string, delim: string, multiline: bool): (r: Parse<Code>)
    requires delim != "" && delim <= s
    ensures r.Read? ==> |r.rest| <= |s| && (r.rest == "" || LeadOf(spec, r.rest).Closer?)
    decreases |s|, 0
  {
    match ReadBody(delim, multiline, s[|delim|..])
    case Stuck => Stuck
    case Read(content, rest1) =>
      match ReadCode(spec, rest1[|delim|..])
      case Stuck => Stuck
      case Read(next, rest) => Read(Literal(delim, multiline, content, next), rest)
  }

  function ReadTemplate(spec: LanguageSpec, s: string): (r: Parse<Code>)
    requires s != ""
    ensures r.Read? ==> |r.rest| <= |s| && (r.rest == "" || LeadOf(spec, r.rest).Closer?)
    decreases |s|, 0
  {
    match ReadParts(spec, s[1..])
    case Stuck => Stuck
    case Read(parts, rest1) =>
      match ReadCode(spec, rest1[1..])
      case Stuck => Stuck
      case Read(next, rest) => Read(TemplateLiteral(parts, next), rest)
  }

  function ReadGroup(spec: LanguageSpec, s: string): (r: Parse<Code>)
    requires s != ""
    ensures r.Read? ==> |r.rest| <= |s| && (r.rest == "" || LeadOf(spec, r.rest).Closer?)
    decreases |s|, 0
  {
    match ReadCode(spec, s[1..])
    case Stuck => Stuck
    case Read(inner, rest1) =>
      if rest1 == "" || rest1[0] != Closing(s[0]) then Stuck
      else match ReadCode(spec, rest1[1..])
        case Stuck => Stuck
        case Read(next, rest) => Read(Group(s[0], inner, next), rest)
  }

  /** Reads a string up to its closing delimiter. */
  function ReadBody(delim: string, multiline: bool, s: string): (r: Parse<Body>)
    requires delim != ""
    ensures r.Read? ==> |r.rest| <= |s| && delim <= r.rest
    decreases |s|
  {
    if s == "" || (s[0] == '\n' && !multiline) || s == "\\" then Stuck
    else if delim <= s then Read(BodyEnd, s)
    else if s[0] == '\\' then
      match ReadBody(delim, multiline, s[2..])
      case Stuck => Stuck
      case Read(next, rest) => Read(Escape(s[1], next), rest)
    else
      match ReadBody(delim, multiline, s[1..])
      case Stuck => Stuck
      case Read(next, rest) => Read(Char(s[0], next), rest)
  }

  /** Reads a template up to its closing backtick. */
  function ReadParts(spec: LanguageSpec, s: string): (r: Parse<Parts>)
    ensures r.Read? ==> |r.rest| <= |s| && "`" <= r.rest
    decreases |s|, 0
  {
    if s == "" || s == "\\" then Stuck
    else if s[0] == '`' then Read(PartsEnd, s)
    else if s[0] == '\\' then
      match ReadParts(spec, s[2..])
      case Stuck => Stuck
      case Read(next, rest) => Read(PartEscape(s[1], next), rest)
    else if "${" <= s then
      match ReadCode(spec, s[2..])
      case Stuck => Stuck
      case Read(code, rest1) =>
        if rest1 == "" || rest1[0] != '}' then Stuck
        else match ReadParts(spec, rest1[1..])
          case Stuck => Stuck
          case Read(next, rest) => Read(Hole(code, next), rest)
    else
      match ReadParts(spec, s[1..])
      case Stuck => Stuck
      case Read(next, rest) => Read(PartChar(s[0], next), rest)
  }

  // ----- the scanner does what the descent does -----

  predicate Accepts(spec: LanguageSpec, s: string, cfg: Config) {
    Scan(spec, s, cfg).Accept?
  }

  predicate InCode(cfg: Config) {
    cfg.stack != [] && (Top(cfg.stack).value.Code? || Top(cfg.stack).value.Interp?)
  }

  lemma {:induction false} ScanBody(spec: LanguageSpec, s: string, cfg: Config, delim: string, multiline: bool)
    returns (line: nat)
    requires delim != "" && delim[0] != '\n' && delim[0] != '\\' && (multiline || |delim| == 1)
    requires Top(cfg.stack) == Some(Str(delim, multiline))
    ensures match ReadBody(delim, multiline, s)
            case Stuck => !Accepts(spec, s, cfg)
            case Read(_, rest) =>
              Accepts(spec, s, cfg) == Accepts(spec, rest[|delim|..], Config(Pop(cfg.stack), cfg.brackets, line))
    decreases |s|
  {
    line := cfg.line;
    if s == "" || (s[0] == '\n' && !multiline) {
    } else if s == "\\" {
      assert Scan(spec, s, cfg) == Scan(spec, "", cfg);
    } else if s[0] == '\n' {
      line := ScanBody(spec, s[1..], cfg.(line := cfg.line + 1), delim, multiline);
    } else if s[0] == '\\' {
      line := ScanBody(spec, s[2..], cfg, delim, multiline);
    } else if !(delim <= s) {
      line := ScanBody(spec, s[1..], cfg, delim, multiline);
    }
  }

  lemma ScanToken(spec: LanguageSpec, s: string, cfg: Config)
    requires InCode(cfg) && s != "" && !LeadOf(spec, s).Newline?
    ensures Step(spec, s, cfg) == CodeMove(spec, s, cfg)
  {}

  /** A closing bracket in code is accepted only on the bracket it closes. */
  lemma ScanCloser(spec: LanguageSpec, s: string, cfg: Config)
    requires InCode(cfg) && spec.checkBrackets && cfg.brackets != [] && (s != "" ==> LeadOf(spec, s).Closer?)
    ensures var last := Top(cfg.brackets).value;
            Accepts(spec, s, cfg) == (
              s != "" && last.ch == Opening(s[0]) &&
              Accepts(spec, s[1..], Config(if last.opensInterp then Pop(cfg.stack) else cfg.stack, Pop(cfg.brackets), cfg.line)))
  {
    if s != "" {
      ScanToken(spec, s, cfg);
    }
  }

  lemma {:induction false} ScanParts(spec: LanguageSpec, s: string, cfg: Config) returns (line: nat)
    requires spec.checkBrackets && Top(cfg.stack) == Some(Template)
    ensures match ReadParts(spec, s)
            case Stuck => !Accepts(spec, s, cfg)
            case Read(_, rest) => Accepts(spec, s, cfg) == Accepts(spec, rest[1..], Config(Pop(cfg.stack), cfg.brackets, line))
    decreases |s|, 0
  {
    line := cfg.line;
    if s == "" || s[0] == '`' {
    } else if s == "\\" {
      assert Scan(spec, s, cfg) == Scan(spec, "", cfg);
    } else if s[0] == '\\' {
      line := ScanParts(spec, s[2..], cfg);
    } else if "${" <= s {
      var hole := Config(cfg.stack + [Interp], cfg.brackets + [Bracket('{', cfg.line, true)], cfg.line);
      assert Scan(spec, s, cfg) == Scan(spec, s[2..], hole);
      line := ScanRead(spec, s[2..], hole);
      var code := ReadCode(spec, s[2..]);
      if code.Read? {
        ScanCloser(spec, code.rest, hole.(line := line));
        assert Pop(hole.stack) == cfg.stack && Pop(hole.brackets) == cfg.brackets;
        if code.rest != "" && code.rest[0] == '}' {
          line := ScanParts(spec, code.rest[1..], cfg.(line := line));
        }
      }
    } else if s[0] == '\n' {
      line := ScanParts(spec, s[1..], cfg.(line := cfg.line + 1));
    } else {
      line := ScanParts(spec, s[1..], cfg);
    }
  }

  lemma {:induction false} ScanLiteral(spec: LanguageSpec, s: string, cfg: Config, delim: string, multiline: bool) returns (line: nat)
    requires delim != "" && delim <= s && delim[0] != '\n' && delim[0] != '\\' && (multiline || |delim| == 1) && InCode(cfg)
    ensures var at := cfg.(stack := cfg.stack + [Str(delim, multiline)]);
            match ReadLiteral(spec, s, delim, multiline)
            case Stuck => !Accepts(spec, s[|delim|..], at)
            case Read(_, rest) => Accepts(spec, s[|delim|..], at) == Accepts(spec, rest, cfg.(line := line))
    decreases |s|, 0
  {
    var at := cfg.(stack := cfg.stack + [Str(delim, multiline)]);
    line := ScanBody(spec, s[|delim|..], at, delim, multiline);
    assert Pop(at.stack) == cfg.stack;
    var body := ReadBody(delim, multiline, s[|delim|..]);
    if body.Read? {
      line := ScanRead(spec, body.rest[|delim|..], cfg.(line := line));
    }
  }

  /** Scanning code up to a closing bracket or the end leaves both stacks as they were. */
  lemma {:induction false} ScanRead(spec: LanguageSpec, s: string, cfg: Config) returns (line: nat)
    requires InCode(cfg)
    ensures match ReadCode(spec, s)
            case Stuck => !Accepts(spec, s, cfg)
            case Read(_, rest) => Accepts(spec, s, cfg) == Accepts(spec, rest, cfg.(line := line))
    decreases |s|, 1
  {
    line := cfg.line;
    if s != "" {
      if !LeadOf(spec, s).Newline? {
        ScanToken(spec, s, cfg);
      }
      match LeadOf(spec, s) {
        case Newline =>
          line := ScanRead(spec, s[1..], cfg.(line := cfg.line + 1));
        case BlockOpen =>
          line := ScanComment(spec, s, cfg);
        case LineMark =>
          line := ScanRead(spec, s[FirstIndex(s, '\n')..], cfg);
          assert ReadLineComment(spec, s).Read? <==> ReadCode(spec, s[FirstIndex(s, '\n')..]).Read?;
        case MultiQuote(mark) =>
          line := ScanLiteral(spec, s, cfg, mark, true);
        case Quote =>
          line := ScanLiteral(spec, s, cfg, [s[0]], false);
        case Backtick =>
          line := ScanTemplate(spec, s, cfg);
        case Opener =>
          line := ScanGroup(spec, s, cfg);
        case Closer =>
        case Other =>
          line := ScanRead(spec, s[1..], cfg);
      }
    }
  }

  lemma {:induction false} ScanGroup(spec: LanguageSpec, s: string, cfg: Config) returns (line: nat)
    requires InCode(cfg) && s != "" && LeadOf(spec, s).Opener?
    ensures match ReadGroup(spec, s)
            case Stuck => !Accepts(spec, s, cfg)
            case Read(_, rest) => Accepts(spec, s, cfg) == Accepts(spec, rest, cfg.(line := line))
    decreases |s|, 0
  {
    var at := cfg.(brackets := cfg.brackets + [Bracket(s[0], cfg.line, false)]);
    line := ScanRead(spec, s[1..], at);
    ScanToken(spec, s, cfg);
    var inner := ReadCode(spec, s[1..]);
    if inner.Read? {
      ScanCloser(spec, inner.rest, at.(line := line));
      assert Pop(at.brackets) == cfg.brackets;
      if inner.rest != "" && inner.rest[0] == Closing(s[0]) {
        line := ScanRead(spec, inner.rest[1..], cfg.(line := line));
      }
    }
  }

  lemma {:induction false} ScanComment(spec: LanguageSpec, s: string, cfg: Config) returns (line: nat)
    requires InCode(cfg) && s != "" && LeadOf(spec, s).BlockOpen?
    ensures match ReadBlockComment(spec, s[|spec.blockComment.value.0|..])
            case Stuck => !Accepts(spec, s, cfg)
            case Read(_, rest) => Accepts(spec, s, cfg) == Accepts(spec, rest, cfg.(line := line))
    decreases |s|, 0
  {
    ScanToken(spec, s, cfg);
    ScanOneComment(spec, s, cfg);
    line := cfg.line;
    var t := s[|spec.blockComment.value.0|..];
    var found := Find(t, spec.blockComment.value.1);
    if found.Some? {
      var m := CodeMove(spec, s, cfg);
      line := ScanRead(spec, m.rest, m.cfg);
      CommentRead(spec, t, found.value, m.rest);
    }
  }

  /** Reading a comment, once its end is found. */
  lemma CommentRead(spec: LanguageSpec, t: string, k: nat, rest: string)
    requires spec.blockComment.Some? && Find(t, spec.blockComment.value.1) == Some(k)
    requires rest == t[k + |spec.blockComment.value.1|..]
    ensures match ReadCode(spec, rest)
            case Stuck => ReadBlockComment(spec, t).Stuck?
            case Read(_, rest1) => ReadBlockComment(spec, t).Read? && ReadBlockComment(spec, t).rest == rest1
  {}

  lemma ScanOneComment(spec: LanguageSpec, s: string, cfg: Config)
    requires s != "" && LeadOf(spec, s).BlockOpen?
    ensures var (open, close) := spec.blockComment.value;
            match Find(s[|open|..], close)
            case None => CodeMove(spec, s, cfg).Stop?
            case Some(k) =>
              var m := CodeMove(spec, s, cfg);
              m.Next? && m.rest == s[|open|..][k + |close|..] && m.cfg == cfg.(line := m.cfg.line)
  {
    var (open, close) := spec.blockComment.value;
    var found := Find(s[|open|..], close);
    if found.Some? {
      DropDrop(s, |open|, found.value + |close|);
    }
  }

  lemma {:induction false} ScanTemplate(spec: LanguageSpec, s: string, cfg: Config) returns (line: nat)
    requires InCode(cfg) && s != "" && LeadOf(spec, s).Backtick?
    ensures match ReadTemplate(spec, s)
            case Stuck => !Accepts(spec, s, cfg)
            case Read(_, rest) => Accepts(spec, s, cfg) == Accepts(spec, rest, cfg.(line := line))
    decreases |s|, 0
  {
    ScanToken(spec, s, cfg);
    var at := cfg.(stack := cfg.stack + [Template]);
    line := ScanParts(spec, s[1..], at);
    assert Pop(at.stack) == cfg.stack;
    var parts := ReadParts(spec, s[1..]);
    if parts.Read? {
      line := ScanRead(spec, parts.rest[1..], cfg.(line := line));
    }
  }

  // ----- the descent reads exactly the well-formed trees -----

  lemma {:induction false} ReadBodySound(delim: string, multiline: bool, s: string)
    requires delim != "" && ReadBody(delim, multiline, s).Read?
    ensures var Read(body, rest) := ReadBody(delim, multiline, s);
            BodyText(body, rest) == s && BodyOk(delim, multiline, body, rest)
    decreases |s|
  {
    var Read(body, rest) := ReadBody(delim, multiline, s);
    if body.Escape? {
      ReadBodySound(delim, multiline, s[2..]);
      assert "\\" + ([s[1]] + s[2..]) == s;
    } else if body.Char? {
      ReadBodySound(delim, multiline, s[1..]);
    }
  }

  lemma OneThenRest(s: string)
    requires s != ""
    ensures [s[0]] + s[1..] == s
  {}

  lemma TwoThenRest(s: string)
    requires |s| >= 2
    ensures [s[0], s[1]] + s[2..] == s && [s[0]] + ([s[1]] + s[2..]) == s
  {}

  lemma {:induction false} ReadPartsSound(spec: LanguageSpec, s: string)
    requires ReadParts(spec, s).Read?
    ensures var Read(parts, rest) := ReadParts(spec, s);
            PartsText(spec, parts, rest) == s && PartsOk(spec, parts, rest)
    decreases |s|, 0
  {
    var Read(parts, rest) := ReadParts(spec, s);
    match parts {
      case PartsEnd =>
      case PartEscape(_, next) =>
        ReadPartsSound(spec, s[2..]);
        TwoThenRest(s);
      case PartChar(_, next) =>
        ReadPartsSound(spec, s[1..]);
        assert [s[0]] + s[1..] == s;
      case Hole(code, next) =>
        ReadCodeSound(spec, s[2..]);
        var rest1 := ReadCode(spec, s[2..]).rest;
        ReadPartsSound(spec, rest1[1..]);
        TwoThenRest(s);
        OneThenRest(rest1);
    }
  }

  lemma {:induction false} ReadCodeSound(spec: LanguageSpec, s: string)
    requires ReadCode(spec, s).Read?
    ensures var Read(code, rest) := ReadCode(spec, s);
            CodeText(spec, code, rest) == s && CodeOk(spec, code, rest)
    decreases |s|, 1
  {
    if s != "" {
      match LeadOf(spec, s) {
        case BlockOpen =>
          ReadCommentSound(spec, s[|spec.blockComment.value.0|..]);
          TakeDrop(s, |spec.blockComment.value.0|);
        case LineMark => ReadLineCommentSound(spec, s);
        case MultiQuote(mark) => ReadLiteralSound(spec, s, mark, true);
        case Quote => ReadLiteralSound(spec, s, [s[0]], false);
        case Backtick => ReadTemplateSound(spec, s);
        case Opener => ReadGroupSound(spec, s);
        case Closer =>
        case _ =>
          ReadCodeSound(spec, s[1..]);
          assert [s[0]] + s[1..] == s;
      }
    }
  }

  lemma {:induction false} ReadCommentSound(spec: LanguageSpec, s: string)
    requires spec.blockComment.Some? && ReadBlockComment(spec, s).Read?
    ensures var Read(code, rest) := ReadBlockComment(spec, s);
            code.BlockComment? && CodeText(spec, code, rest) == spec.blockComment.value.0 + s && CodeOk(spec, code, rest)
    decreases |s|, 2
  {
    var close := spec.blockComment.value.1;
    var k := Find(s, close).value;
    ReadCodeSound(spec, s[k + |close|..]);
    CommentSplits(s, close, k);
  }

  lemma OccursSplits(text: string, close: string, k: nat)
    requires Occurs(text, close, k)
    ensures text[..k] + (close + text[k + |close|..]) == text
  {
    TakeDrop(text, k);
    TakeDrop(text[k..], |close|);
    DropDrop(text, k, |close|);
  }

  lemma CommentSplits(text: string, close: string, k: nat)
    requires Find(text, close) == Some(k)
    ensures text[..k] + (close + text[k + |close|..]) == text && ClosesOnce(text[..k], close)
  {
    FindOccurs(text, close);
    OccursSplits(text, close, k);
    FindLocal(text[..k], close, text[k + |close|..]);
  }

  /** Where the first closing mark stands does not depend on what follows it. */
  lemma {:induction false} FindLocal(body: string, close: string, rest: string)
    ensures Find(body + (close + rest), close) == Some(|body|) <==> ClosesOnce(body, close)
  {
    SamePrefix(body + close, rest, close);
    assert (body + close) + rest == body + (close + rest);
    if body != "" {
      FindLocal(body[1..], close, rest);
      TailsAppended(body, close, rest);
    }
  }

  lemma SamePrefix(s: string, rest: string, close: string)
    requires |close| <= |s|
    ensures close <= s + rest <==> close <= s
  {
    assert (s + rest)[..|close|] == s[..|close|];
  }

  lemma TailsAppended(body: string, close: string, rest: string)
    requires body != ""
    ensures (body + (close + rest))[1..] == body[1..] + (close + rest) && (body + close)[1..] == body[1..] + close
  {}

  lemma {:induction false} ReadLineCommentSound(spec: LanguageSpec, s: string)
    requires s != "" && LeadOf(spec, s).LineMark? && ReadLineComment(spec, s).Read?
    ensures var Read(code, rest) := ReadLineComment(spec, s);
            CodeText(spec, code, rest) == s && CodeOk(spec, code, rest)
    decreases |s|, 0
  {
    var k := FirstIndex(s, '\n');
    FirstIndexFirst(s, '\n');
    ReadCodeSound(spec, s[k..]);
    TakeDrop(s, k);
  }

  lemma {:induction false} ReadTemplateSound(spec: LanguageSpec, s: string)
    requires s != "" && LeadOf(spec, s).Backtick? && ReadTemplate(spec, s).Read?
    ensures var Read(code, rest) := ReadTemplate(spec, s);
            CodeText(spec, code, rest) == s && CodeOk(spec, code, rest)
    decreases |s|, 0
  {
    ReadPartsSound(spec, s[1..]);
    var rest1 := ReadParts(spec, s[1..]).rest;
    ReadCodeSound(spec, rest1[1..]);
    assert "`" + rest1[1..] == rest1 && "`" + s[1..] == s;
  }

  lemma {:induction false} ReadGroupSound(spec: LanguageSpec, s: string)
    requires s != "" && LeadOf(spec, s).Opener? && ReadGroup(spec, s).Read?
    ensures var Read(code, rest) := ReadGroup(spec, s);
            CodeText(spec, code, rest) == s && CodeOk(spec, code, rest)
    decreases |s|, 0
  {
    ReadCodeSound(spec, s[1..]);
    var rest1 := ReadCode(spec, s[1..]).rest;
    ReadCodeSound(spec, rest1[1..]);
    assert [Closing(s[0])] + rest1[1..] == rest1 && [s[0]] + s[1..] == s;
  }

  lemma {:induction false} ReadLiteralSound(spec: LanguageSpec, s: string, delim: string, multiline: bool)
    requires delim != "" && delim <= s && s[0] != '\n' && ReadLiteral(spec, s, delim, multiline).Read?
    requires if multiline then LeadOf(spec, s) == MultiQuote(delim) else |delim| == 1 && LeadOf(spec, s).Quote?
    ensures var Read(code, rest) := ReadLiteral(spec, s, delim, multiline);
            CodeText(spec, code, rest) == s && CodeOk(spec, code, rest)
    decreases |s|, 0
  {
    ReadBodySound(delim, multiline, s[|delim|..]);
    var rest1 := ReadBody(delim, multiline, s[|delim|..]).rest;
    ReadCodeSound(spec, rest1[|delim|..]);
    assert delim + rest1[|delim|..] == rest1 && delim + s[|delim|..] == s;
  }

  lemma {:induction false} ReadBodyComplete(delim: string, multiline: bool, body: Body, after: string)
    requires delim != "" && delim[0] != '\n' && delim[0] != '\\' && delim <= after
    requires BodyOk(delim, multiline, body, after)
    ensures ReadBody(delim, multiline, BodyText(body, after)) == Read(body, after)
  {
    var s := BodyText(body, after);
    match body {
      case BodyEnd =>
      case Char(c, next) =>
        ReadBodyComplete(delim, multiline, next, after);
        DropPrefix([c], BodyText(next, after));
      case Escape(c, next) =>
        ReadBodyComplete(delim, multiline, next, after);
        DropPrefix("\\", [c] + BodyText(next, after));
        DropPrefix([c], BodyText(next, after));
        DropDrop(s, 1, 1);
    }
  }

  lemma {:induction false} ReadPartsComplete(spec: LanguageSpec, parts: Parts, after: string)
    requires "`" <= after && PartsOk(spec, parts, after)
    ensures ReadParts(spec, PartsText(spec, parts, after)) == Read(parts, after)
    decreases parts, 1
  {
    var s := PartsText(spec, parts, after);
    match parts {
      case PartsEnd => assert after[0] == '`';
      case PartChar(c, next) =>
        ReadPartsComplete(spec, next, after);
        DropPrefix([c], PartsText(spec, next, after));
      case PartEscape(c, next) =>
        ReadPartsComplete(spec, next, after);
        DropPrefix("\\", [c] + PartsText(spec, next, after));
        DropPrefix([c], PartsText(spec, next, after));
        DropDrop(s, 1, 1);
      case Hole(_, _) => ReadHoleComplete(spec, parts, after);
    }
  }

  lemma {:induction false} ReadHoleComplete(spec: LanguageSpec, parts: Parts, after: string)
    requires parts.Hole? && "`" <= after && PartsOk(spec, parts, after)
    ensures ReadParts(spec, PartsText(spec, parts, after)) == Read(parts, after)
    decreases parts, 0
  {
    var rest := "}" + PartsText(spec, parts.next, after);
    ReadCodeComplete(spec, parts.code, rest);
    ReadPartsComplete(spec, parts.next, after);
    DropPrefix("${", CodeText(spec, parts.code, rest));
    DropPrefix("}", PartsText(spec, parts.next, after));
  }

  lemma {:induction false} ReadCodeComplete(spec: LanguageSpec, code: Code, after: string)
    requires CodeOk(spec, code, after) && (after == "" || LeadOf(spec, after).Closer?)
    ensures ReadCode(spec, CodeText(spec, code, after)) == Read(code, after)
    decreases code, 2
  {
    match code {
      case End =>
      case Plain(_, _) => ReadPlainComplete(spec, code, after);
      case BlockComment(_, _) => ReadBlockComplete(spec, code, after);
      case LineComment(_, _) => ReadLineCommentComplete(spec, code, after);
      case Literal(_, _, _, _) => ReadQuotedComplete(spec, code, after);
      case TemplateLiteral(_, _) => ReadTemplateComplete(spec, code, after);
      case Group(_, _, _) => ReadGroupComplete(spec, code, after);
    }
  }

  lemma {:induction false} ReadBlockComplete(spec: LanguageSpec, code: Code, after: string)
    requires code.BlockComment? && CodeOk(spec, code, after) && (after == "" || LeadOf(spec, after).Closer?)
    ensures ReadCode(spec, CodeText(spec, code, after)) == Read(code, after)
    decreases code, 1
  {
    ReadCommentComplete(spec, code, after);
    ReadOpenedComment(spec, code.body, CodeText(spec, code.next, after));
  }

  lemma {:induction false} ReadQuotedComplete(spec: LanguageSpec, code: Code, after: string)
    requires code.Literal? && CodeOk(spec, code, after) && (after == "" || LeadOf(spec, after).Closer?)
    ensures ReadCode(spec, CodeText(spec, code, after)) == Read(code, after)
    decreases code, 1
  {
    ReadLiteralComplete(spec, code, after);
    assert !code.multiline ==> code.delim == [CodeText(spec, code, after)[0]];
  }

  lemma {:induction false} ReadPlainComplete(spec: LanguageSpec, code: Code, after: string)
    requires code.Plain? && CodeOk(spec, code, after) && (after == "" || LeadOf(spec, after).Closer?)
    ensures ReadCode(spec, CodeText(spec, code, after)) == Read(code, after)
    decreases code, 0
  {
    ReadCodeComplete(spec, code.next, after);
    DropPrefix([code.c], CodeText(spec, code.next, after));
  }

  lemma ReadOpenedComment(spec: LanguageSpec, body: string, tail: string)
    requires spec.blockComment.Some?
    ensures var (open, close) := spec.blockComment.value;
            var s := open + (body + (close + tail));
            s != "" && s[0] == open[0] && s[|open|..] == body + (close + tail)
  {
    var (open, close) := spec.blockComment.value;
    DropPrefix(open, body + (close + tail));
  }

  lemma {:induction false} ReadCommentComplete(spec: LanguageSpec, code: Code, after: string)
    requires code.BlockComment? && CodeOk(spec, code, after) && (after == "" || LeadOf(spec, after).Closer?)
    ensures ReadBlockComment(spec, code.body + (spec.blockComment.value.1 + CodeText(spec, code.next, after))) == Read(code, after)
    decreases code, 0
  {
    var tail := CodeText(spec, code.next, after);
    var close := spec.blockComment.value.1;
    ReadCodeComplete(spec, code.next, after);
    FindLocal(code.body, close, tail);
    ThreeParts(code.body, close, tail);
    ReadCommentStep(spec, code.body + (close + tail), code.body, tail);
  }

  lemma ReadCommentStep(spec: LanguageSpec, s: string, body: string, tail: string)
    requires spec.blockComment.Some? && Find(s, spec.blockComment.value.1) == Some(|body|)
    requires s[..|body|] == body && s[|body| + |spec.blockComment.value.1|..] == tail
    requires ReadCode(spec, tail).Read?
    ensures var Read(next, rest) := ReadCode(spec, tail); ReadBlockComment(spec, s) == Read(BlockComment(body, next), rest)
  {}

  lemma {:induction false} ReadLineCommentComplete(spec: LanguageSpec, code: Code, after: string)
    requires code.LineComment? && CodeOk(spec, code, after) && (after == "" || LeadOf(spec, after).Closer?)
    ensures var s := CodeText(spec, code, after); s != "" && LeadOf(spec, s).LineMark? && ReadLineComment(spec, s) == Read(code, after)
    ensures ReadCode(spec, CodeText(spec, code, after)) == Read(code, after)
    decreases code, 0
  {
    var s, next := CodeText(spec, code, after), code.next;
    var tail := CodeText(spec, next, after);
    ReadCodeComplete(spec, next, after);
    var text := code.text;
    DropPrefix(text, tail);
    if tail != "" {
      FirstIndexUnique(s, '\n', |text|);
    }
    assert FirstIndex(s, '\n') == |text|;
  }

  lemma {:induction false} ReadLiteralComplete(spec: LanguageSpec, code: Code, after: string)
    requires code.Literal? && CodeOk(spec, code, after) && (after == "" || LeadOf(spec, after).Closer?)
    ensures var s := CodeText(spec, code, after); s != "" && code.delim <= s && ReadLiteral(spec, s, code.delim, code.multiline) == Read(code, after) && s[0] == code.delim[0]
    decreases code, 0
  {
    var s, next := CodeText(spec, code, after), code.next;
    var tail := CodeText(spec, next, after);
    ReadCodeComplete(spec, next, after);
    var delim, rest := code.delim, code.delim + tail;
    DropPrefix(delim, BodyText(code.content, rest));
    DropPrefix(delim, tail);
    assert s[0] == delim[0];
    ReadBodyComplete(delim, code.multiline, code.content, rest);
  }

  lemma {:induction false} ReadTemplateComplete(spec: LanguageSpec, code: Code, after: string)
    requires code.TemplateLiteral? && CodeOk(spec, code, after) && (after == "" || LeadOf(spec, after).Closer?)
    ensures var s := CodeText(spec, code, after); s != "" && ReadTemplate(spec, s) == Read(code, after)
    ensures ReadCode(spec, CodeText(spec, code, after)) == Read(code, after)
    decreases code, 0
  {
    var s, next := CodeText(spec, code, after), code.next;
    var tail := CodeText(spec, next, after);
    ReadCodeComplete(spec, next, after);
    var rest := "`" + tail;
    ReadPartsComplete(spec, code.parts, rest);
    DropPrefix("`", PartsText(spec, code.parts, rest));
    DropPrefix("`", tail);
  }

  lemma {:induction false} ReadGroupComplete(spec: LanguageSpec, code: Code, after: string)
    requires code.Group? && CodeOk(spec, code, after) && (after == "" || LeadOf(spec, after).Closer?)
    ensures var s := CodeText(spec, code, after); s != "" && ReadGroup(spec, s) == Read(code, after)
    ensures ReadCode(spec, CodeText(spec, code, after)) == Read(code, after)
    decreases code, 0
  {
    var s, next := CodeText(spec, code, after), code.next;
    var tail := CodeText(spec, next, after);
    ReadCodeComplete(spec, next, after);
    var rest := [Closing(code.open)] + tail;
    ReadCodeComplete(spec, code.inner, rest);
    DropPrefix([code.open], CodeText(spec, code.inner, rest));
    DropPrefix([Closing(code.open)], tail);
  }
}
