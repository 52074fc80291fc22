/** The glob compiler: a pattern is translated token by token into the pieces of a regular expression
    (packages/plugin-sdk/src/glob.ts). For patterns without braces and classes the language of the emitted
    expression is proved to be that of a segment-by-segment matcher. */
module Glob {
  import opened Text

  /** One emitted piece of the regular expression. */
  datatype Piece =
    | Lit(c: char)
    | NotSlash        // [^/]
    | NotSlashRun     // [^/]*
    | AnyRun          // .*
    | SegmentRun      // (?:[^/]+/)*
    | GroupOpen | Bar | GroupClose
    | Class(negated: bool, body: string)

  datatype Error = EmptyPattern | NeverOpened | UnclosedBrace | UnclosedClass | EmptyClass

  datatype Outcome = Pieces(pieces: seq<Piece>) | Refused(error: Error)

  datatype Token = Token(piece: Piece, next: nat, depth: nat) | BadToken(error: Error)

  /** Backslashes become slashes, and a leading `./` goes. */
  function ToPosix(path: string): string {
    var p := Slashes(path);
    if "./" <= p then p[2..] else p
  }

  function Slashes(s: string): (r: string)
    ensures |r| == |s| && forall k :: 0 <= k < |s| ==> r[k] == if s[k] == '\\' then '/' else s[k]
  {
    seq(|s|, k requires 0 <= k < |s| => if s[k] == '\\' then '/' else s[k])
  }

  function TranslateStar(source: string, index: nat): (Piece, nat)
    requires index < |source| && source[index] == '*'
  {
    if index + 1 == |source| || source[index + 1] != '*' then (NotSlashRun, index + 1)
    else if (index == 0 || source[index - 1] == '/') && index + 2 < |source| && source[index + 2] == '/' then (SegmentRun, index + 3)
    else (AnyRun, index + 2)
  }

  function TranslateClass(source: string, index: nat, depth: nat): Token
    requires index < |source|
  {
    var length := FirstIndex(source[index + 1..], ']');
    var close := index + 1 + length;
    if close == |source| then BadToken(UnclosedClass)
    else if length == 0 then BadToken(EmptyClass)
    else
      var body := source[index + 1..close];
      if body[0] == '!' || body[0] == '^' then Token(Class(true, body[1..]), close + 1, depth)
      else Token(Class(false, body), close + 1, depth)
  }

  function TranslateToken(source: string, index: nat, depth: nat): (t: Token)
    requires index < |source|
    ensures t.Token? ==> index < t.next <= |source|
  {
    match source[index]
    case '*' => var (piece, next) := TranslateStar(source, index); Token(piece, next, depth)
    case '?' => Token(NotSlash, index + 1, depth)
    case '[' => TranslateClass(source, index, depth)
    case '{' => Token(GroupOpen, index + 1, depth + 1)
    case '}' => if depth == 0 then BadToken(NeverOpened) else Token(GroupClose, index + 1, depth - 1)
    case ',' => Token(if depth > 0 then Bar else Lit(','), index + 1, depth)
    case c => Token(Lit(c), index + 1, depth)
  }

  function Prepend(pieces: seq<Piece>, outcome: Outcome): Outcome {
    match outcome
    case Pieces(more) => Pieces(pieces + more)
    case Refused(_) => outcome
  }

  /** The translation from `index` on. */
  function Translate(source: string, index: nat, depth: nat): Outcome
    requires index <= |source|
    decreases |source| - index
  {
    if index == |source| then if depth > 0 then Refused(UnclosedBrace) else Pieces([])
    else match TranslateToken(source, index, depth)
      case BadToken(error) => Refused(error)
      case Token(piece, next, depth') => Prepend([piece], Translate(source, next, depth'))
  }

  function Compiled(pattern: string): Outcome {
    var source := ToPosix(pattern);
    if source == "" then Refused(EmptyPattern) else Translate(source, 0, 0)
  }

  lemma PrependPrepend(a: seq<Piece>, b: seq<Piece>, outcome: Outcome)
    ensures Prepend(a, Prepend(b, outcome)) == Prepend(a + b, outcome)
  {
    if outcome.Pieces? {
      assert a + (b + outcome.pieces) == (a + b) + outcome.pieces;
    }
  }

  method CompileGlob(pattern: string) returns (outcome: Outcome)
    ensures outcome == Compiled(pattern)
  {
    var source := ToPosix(pattern);
    if |source| == 0 {
      return Refused(EmptyPattern);
    }
    var regex: seq<Piece> := [];
    var index, braceDepth := 0, 0;
    ghost var all := Translate(source, 0, 0);
    assert Prepend([], all) == all;
    while index < |source|
      invariant index <= |source|
      invariant Prepend(regex, Translate(source, index, braceDepth)) == all
      decreases |source| - index
    {
      var token := TranslateToken(source, index, braceDepth);
      if token.BadToken? {
        return Refused(token.error);
      }
      PrependPrepend(regex, [token.piece], Translate(source, token.next, token.depth));
      regex := regex + [token.piece];
      index := token.next;
      braceDepth := token.depth;
    }
    if braceDepth > 0 {
      return Refused(UnclosedBrace);
    }
    assert regex + [] == regex;
    outcome := Pieces(regex);
  }

  // ----- regular expressions -----

  datatype Chars = Only(c: char) | ButSlash | ButLineEnd

  predicate IsLineEnd(c: char) {
    c == '\n' || c == '\r' || c == '\U{2028}' || c == '\U{2029}'
  }

  predicate Has(set_: Chars, c: char) {
    match set_
    case Only(d) => c == d
    case ButSlash => c != '/'
    case ButLineEnd => !IsLineEnd(c)
  }

  datatype Regex = Eps | One(chars: Chars) | Cat(a: Regex, b: Regex) | Star(a: Regex)

  /** The language of a regular expression. */
  ghost predicate In(r: Regex, s: string)
    decreases r, |s|
  {
    match r
    case Eps => s == ""
    case One(chars) => |s| == 1 && Has(chars, s[0])
    case Cat(a, b) => exists k :: 0 <= k <= |s| && In(a, s[..k]) && In(b, s[k..])
    case Star(a) => s == "" || exists k :: 0 < k <= |s| && In(a, s[..k]) && In(r, s[k..])
  }

  const SEGMENT := Cat(Cat(One(ButSlash), Star(One(ButSlash))), One(Only('/')))

  predicate IsSimple(piece: Piece) {
    piece.Lit? || piece.NotSlash? || piece.NotSlashRun? || piece.AnyRun? || piece.SegmentRun?
  }

  predicate Simple(pieces: seq<Piece>) {
    pieces == [] || (IsSimple(pieces[0]) && Simple(pieces[1..]))
  }

  function PieceRegex(piece: Piece): Regex
    requires IsSimple(piece)
  {
    match piece
    case Lit(c) => One(Only(c))
    case NotSlash => One(ButSlash)
    case NotSlashRun => Star(One(ButSlash))
    case AnyRun => Star(One(ButLineEnd))
    case SegmentRun => Star(SEGMENT)
  }

  /** The expression that the pieces spell, one after the other. */
  function Denote(pieces: seq<Piece>): Regex
    requires Simple(pieces)
  {
    if pieces == [] then Eps else Cat(PieceRegex(pieces[0]), Denote(pieces[1..]))
  }

  // ----- the reference matcher -----

  /** A segment of a pattern against a segment of a path: `*` is any run, `?` any one character. */
  predicate SegmentMatches(p: string, x: string)
    decreases |p|, |x|
  {
    if p == "" then x == ""
    else if p[0] == '*' then SegmentMatches(p[1..], x) || (x != "" && SegmentMatches(p, x[1..]))
    else x != "" && (p[0] == '?' || p[0] == x[0]) && SegmentMatches(p[1..], x[1..])
  }

  /** Pattern segments against path segments: a last `**` stands for any remainder, any other `**` for zero or more
      non-empty segments, and everything else for one segment. */
  predicate PathMatches(ps: seq<string>, xs: seq<string>)
    decreases |ps|, |xs|
  {
    if ps == [] then xs == []
    else if ps == ["**"] then xs != []
    else if ps[0] == "**" then PathMatches(ps[1..], xs) || (xs != [] && xs[0] != "" && PathMatches(ps, xs[1..]))
    else xs != [] && SegmentMatches(ps[0], xs[0]) && PathMatches(ps[1..], xs[1..])
  }

  /** No braces and no classes, and `**` only as a whole segment. */
  ghost predicate IsPlain(source: string) {
    (forall c <- source :: c != '[' && c != '{' && c != '}') && PlainSegments(Split(source, '/'))
  }

  predicate PlainSegments(ps: seq<string>) {
    ps == [] || ((ps[0] == "**" || StarsApart(ps[0])) && PlainSegments(ps[1..]))
  }

  predicate StarsApart(p: string) {
    |p| <= 1 || (!(p[0] == '*' && p[1] == '*') && StarsApart(p[1..]))
  }

  // ----- matching pieces from left to right -----

  /** A backtracking matcher on the pieces. */
  predicate Run(pieces: seq<Piece>, s: string)
    requires Simple(pieces)
    decreases |pieces|, |s|
  {
    if pieces == [] then s == ""
    else match pieces[0]
      case Lit(c) => s != "" && s[0] == c && Run(pieces[1..], s[1..])
      case NotSlash => s != "" && s[0] != '/' && Run(pieces[1..], s[1..])
      case NotSlashRun => Run(pieces[1..], s) || (s != "" && s[0] != '/' && Run(pieces, s[1..]))
      case AnyRun => Run(pieces[1..], s) || (s != "" && !IsLineEnd(s[0]) && Run(pieces, s[1..]))
      case SegmentRun =>
        var k := FirstIndex(s, '/');
        Run(pieces[1..], s) || (0 < k < |s| && Run(pieces, s[k + 1..]))
  }
}
