/** What the scanner's two stacks always look like (packages/apply/src/validate.ts). */
module Framing {
  import opened Text
  import opened Validate

  // ----- the shape of the two stacks -----

  /** `code (template interp)*` */
  predicate Nested(stack: seq<Ctx>) {
    stack == [Code] ||
    (|stack| >= 3 && stack[|stack| - 1].Interp? && stack[|stack| - 2].Template? && Nested(stack[..|stack| - 2]))
  }

  function Holes(stack: seq<Ctx>): nat {
    if stack == [] then 0 else Holes(Pop(stack)) + if Top(stack).value.Interp? then 1 else 0
  }

  function HoleBrackets(brackets: seq<Bracket>): nat {
    if brackets == [] then 0 else HoleBrackets(Pop(brackets)) + if Top(brackets).value.opensInterp then 1 else 0
  }

  /** A context that may lie on top of `code (template interp)*`. */
  predicate Leaf(checks: bool, ctx: Ctx) {
    match ctx
    case Str(delim, _) => '\n' !in delim
    case Template => checks
    case _ => false
  }

  /** The context stack is `code (template interp)*` and at most one string or template, and there is one
      bracket that opens an interpolation per interpolation. */
  predicate Shape(checks: bool, stack: seq<Ctx>, brackets: seq<Bracket>) {
    && (Nested(stack) || (|stack| >= 2 && Nested(Pop(stack)) && Leaf(checks, stack[|stack| - 1])))
    && Holes(stack) == HoleBrackets(brackets)
    && (!checks ==> brackets == [])
  }

  predicate InShape(spec: LanguageSpec, cfg: Config) {
    Shape(spec.checkBrackets, cfg.stack, cfg.brackets)
  }

  lemma PopPush<T>(s: seq<T>, x: T)
    ensures Pop(s + [x]) == s && Top(s + [x]) == Some(x)
  {}

  lemma LeafPushed(checks: bool, stack: seq<Ctx>, brackets: seq<Bracket>, leaf: Ctx)
    requires Nested(stack) && Shape(checks, stack, brackets) && Leaf(checks, leaf)
    ensures Shape(checks, stack + [leaf], brackets)
  {
    PopPush(stack, leaf);
  }

  lemma LeafPopped(checks: bool, stack: seq<Ctx>, brackets: seq<Bracket>)
    requires !Nested(stack) && Shape(checks, stack, brackets)
    ensures Shape(checks, Pop(stack), brackets)
  {}

  lemma HolePushed(checks: bool, stack: seq<Ctx>, brackets: seq<Bracket>, line: nat)
    requires Shape(checks, stack, brackets) && Top(stack) == Some(Template)
    ensures Shape(checks, stack + [Interp], brackets + [Bracket('{', line, true)])
  {
    PopPush(stack, Interp);
    PopPush(brackets, Bracket('{', line, true));
    assert (stack + [Interp])[..|stack + [Interp]| - 2] == Pop(stack);
  }

  lemma BracketPushed(checks: bool, stack: seq<Ctx>, brackets: seq<Bracket>, b: Bracket)
    requires checks && Shape(checks, stack, brackets) && !b.opensInterp
    ensures Shape(checks, stack, brackets + [b])
  {
    PopPush(brackets, b);
  }

  lemma BracketPopped(checks: bool, stack: seq<Ctx>, brackets: seq<Bracket>)
    requires Nested(stack) && Shape(checks, stack, brackets) && brackets != []
    ensures Shape(checks, if Top(brackets).value.opensInterp then Pop(stack) else stack, Pop(brackets))
  {
    if Top(brackets).value.opensInterp {
      assert Holes([Code]) == 0;
      assert Pop(Pop(stack)) == stack[..|stack| - 2];
      assert Pop(stack)[|stack| - 2] == stack[|stack| - 2];
    }
  }

  lemma StringKeepsShape(spec: LanguageSpec, s: string, cfg: Config)
    requires InShape(spec, cfg) && !Nested(cfg.stack) && s != "" && s[0] != '\n'
    ensures var m := Step(spec, s, cfg); m.Next? && InShape(spec, m.cfg)
  {
    LeafPopped(spec.checkBrackets, cfg.stack, cfg.brackets);
    if Top(cfg.stack).value.Template? {
      HolePushed(spec.checkBrackets, cfg.stack, cfg.brackets, cfg.line);
    }
  }

  lemma StepKeepsShape(spec: LanguageSpec, s: string, cfg: Config)
    requires InShape(spec, cfg)
    ensures match Step(spec, s, cfg)
            case Next(_, cfg') => InShape(spec, cfg')
            case Stop(Accept) => cfg.stack == [Code] && cfg.brackets == [] && s == ""
            case _ => true
  {
    if s != "" && s[0] != '\n' {
      if Nested(cfg.stack) {
        CodeMoveKeepsShape(spec, s, cfg);
      } else {
        StringKeepsShape(spec, s, cfg);
      }
    }
  }

  lemma CodeMoveKeepsShape(spec: LanguageSpec, s: string, cfg: Config)
    requires InShape(spec, cfg) && Nested(cfg.stack) && s != "" && s[0] != '\n'
    ensures match CodeMove(spec, s, cfg)
            case Next(_, cfg') => InShape(spec, cfg')
            case Stop(verdict) => verdict.Reject?
  {
    var checks, stack, brackets := spec.checkBrackets, cfg.stack, cfg.brackets;
    match LeadOf(spec, s) {
      case MultiQuote(mark) => LeafPushed(checks, stack, brackets, Str(mark, true));
      case Quote => LeafPushed(checks, stack, brackets, Str([s[0]], false));
      case Backtick => LeafPushed(checks, stack, brackets, Template);
      case Opener => BracketPushed(checks, stack, brackets, Bracket(s[0], cfg.line, false));
      case Closer =>
        if brackets != [] {
          BracketPopped(checks, stack, brackets);
        }
      case _ =>
    }
  }

  /** Where the scanner is after `n` rounds. */
  function After(spec: LanguageSpec, s: string, cfg: Config, n: nat): Move {
    if n == 0 then Next(s, cfg)
    else match After(spec, s, cfg, n - 1)
      case Stop(verdict) => Stop(verdict)
      case Next(rest, cfg') => Step(spec, rest, cfg')
  }

  /** Over every text, at every moment, the stacks have the shape. */
  lemma {:induction false} AlwaysInShape(spec: LanguageSpec, text: string, n: nat)
    ensures match After(spec, text, START, n)
            case Next(_, cfg) => InShape(spec, cfg)
            case Stop(_) => true
  {
    if n > 0 {
      AlwaysInShape(spec, text, n - 1);
      match After(spec, text, START, n - 1) {
        case Next(rest, cfg) => StepKeepsShape(spec, rest, cfg);
        case Stop(_) =>
      }
    }
  }
}
