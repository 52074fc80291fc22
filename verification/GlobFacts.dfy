/** Compiling a glob preserves its meaning. */
module GlobFacts {
  import opened Text
  import opened Glob

  // ----- the language of a concatenation, read from the left -----

  lemma CatOne(chars: Chars, r: Regex, s: string)
    ensures In(Cat(One(chars), r), s) <==> s != "" && Has(chars, s[0]) && In(r, s[1..])
  {
    if s != "" && Has(chars, s[0]) && In(r, s[1..]) {
      assert In(One(chars), s[..1]);
    }
  }

  lemma CatStarOpen(a: Regex, r: Regex, s: string) returns (k: nat)
    requires In(Cat(Star(a), r), s) && !In(r, s)
    ensures 0 < k <= |s| && In(a, s[..k]) && In(Cat(Star(a), r), s[k..])
  {
    var k0 := CatOpen(Star(a), r, s);
    var front := s[..k0];
    assert s[0..] == s;
    assert k0 != 0;
    k := StarOpen(a, front);
    CatStarRest(a, r, s, k0, k);
  }

  lemma CatStarRest(a: Regex, r: Regex, s: string, k0: nat, k: nat)
    requires k <= k0 <= |s| && In(r, s[k0..]) && In(a, s[..k0][..k]) && In(Star(a), s[..k0][k..])
    ensures In(a, s[..k]) && In(Cat(Star(a), r), s[k..])
  {
    var more := s[k..];
    assert s[..k0][..k] == s[..k] && s[..k0][k..] == more[..k0 - k];
    DropDrop(s, k, k0 - k);
    CatIs(Star(a), r, more, k0 - k);
  }

  lemma CatOpen(a: Regex, r: Regex, s: string) returns (k: nat)
    requires In(Cat(a, r), s)
    ensures k <= |s| && In(a, s[..k]) && In(r, s[k..])
  {
    k :| k <= |s| && In(a, s[..k]) && In(r, s[k..]);
  }

  lemma StarOpen(a: Regex, s: string) returns (k: nat)
    requires s != "" && In(Star(a), s)
    ensures 0 < k <= |s| && In(a, s[..k]) && In(Star(a), s[k..])
  {
    k :| 0 < k <= |s| && In(a, s[..k]) && In(Star(a), s[k..]);
  }

  lemma CatIs(a: Regex, r: Regex, s: string, k: nat)
    requires k <= |s| && In(a, s[..k]) && In(r, s[k..])
    ensures In(Cat(a, r), s)
  {}

  lemma CatStarClose(a: Regex, r: Regex, s: string, k: nat)
    requires 0 < k <= |s| && In(a, s[..k]) && In(Cat(Star(a), r), s[k..])
    ensures In(Cat(Star(a), r), s)
  {
    var more := s[k..];
    var j :| 0 <= j <= |more| && In(Star(a), more[..j]) && In(r, more[j..]);
    var front := s[..k + j];
    assert front[..k] == s[..k];
    assert front[k..] == more[..j];
    DropDrop(s, k, j);
    assert In(Star(a), front);
  }

  lemma CatStar(a: Regex, r: Regex, s: string)
    ensures In(Cat(Star(a), r), s) <==> In(r, s) || exists k :: 0 < k <= |s| && In(a, s[..k]) && In(Cat(Star(a), r), s[k..])
  {
    if In(r, s) {
      assert s[..0] == "" && s[0..] == s;
      assert In(Star(a), s[..0]);
    } else if In(Cat(Star(a), r), s) {
      var k := CatStarOpen(a, r, s);
    }
    forall k | 0 < k <= |s| && In(a, s[..k]) && In(Cat(Star(a), r), s[k..]) ensures In(Cat(Star(a), r), s) {
      CatStarClose(a, r, s, k);
    }
  }

  lemma CatStarOne(chars: Chars, r: Regex, s: string)
    ensures In(Cat(Star(One(chars)), r), s) <==> In(r, s) || (s != "" && Has(chars, s[0]) && In(Cat(Star(One(chars)), r), s[1..]))
  {
    CatStar(One(chars), r, s);
    if s != "" && Has(chars, s[0]) {
      assert In(One(chars), s[..1]);
    }
  }

  lemma {:induction false} StarNoSlash(s: string)
    ensures In(Star(One(ButSlash)), s) <==> '/' !in s
    decreases |s|
  {
    if s != "" {
      StarNoSlash(s[1..]);
      assert s == [s[0]] + s[1..];
      if '/' !in s {
        assert s[0] in s;
        assert In(One(ButSlash), s[..1]);
      }
      if In(Star(One(ButSlash)), s) {
        var k :| 0 < k <= |s| && In(One(ButSlash), s[..k]) && In(Star(One(ButSlash)), s[k..]);
      }
    }
  }

  lemma SegmentIs(x: string)
    ensures In(SEGMENT, x) <==> 0 < FirstIndex(x, '/') == |x| - 1
  {
    var k := FirstIndex(x, '/');
    FirstIndexFirst(x, '/');
    if 0 < k == |x| - 1 {
      NonEmptyNoSlash(x[..k]);
      assert x[k..] == "/";
      assert In(One(Only('/')), x[k..]);
    }
    if In(SEGMENT, x) {
      var j :| 0 <= j <= |x| && In(Cat(One(ButSlash), Star(One(ButSlash))), x[..j]) && In(One(Only('/')), x[j..]);
      NonEmptyNoSlash(x[..j]);
      assert j == |x| - 1 && x[j] == x[j..][0];
      FirstIndexUnique(x, '/', j);
    }
  }

  lemma NonEmptyNoSlash(y: string)
    ensures In(Cat(One(ButSlash), Star(One(ButSlash))), y) <==> y != "" && '/' !in y
  {
    CatOne(ButSlash, Star(One(ButSlash)), y);
    if y != "" {
      StarNoSlash(y[1..]);
      assert y == [y[0]] + y[1..];
    }
  }

  /** The only prefix that is a segment with its slash reaches to the first slash. */
  lemma SegmentPrefix(s: string, j: nat)
    requires j <= |s|
    ensures In(SEGMENT, s[..j]) <==> 0 < FirstIndex(s, '/') < |s| && j == FirstIndex(s, '/') + 1
  {
    var k, x := FirstIndex(s, '/'), s[..j];
    SegmentIs(x);
    FirstIndexFirst(s, '/');
    if 0 < k < |s| && j == k + 1 {
      assert x[..k] == s[..k];
      FirstIndexUnique(x, '/', k);
    }
    if 0 < FirstIndex(x, '/') == j - 1 {
      FirstIndexFirst(x, '/');
      assert x[..j - 1] == s[..j - 1];
      FirstIndexUnique(s, '/', j - 1);
    }
  }

  lemma CatSegments(r: Regex, s: string)
    ensures var k := FirstIndex(s, '/');
            In(Cat(Star(SEGMENT), r), s) <==> In(r, s) || (0 < k < |s| && In(Cat(Star(SEGMENT), r), s[k + 1..]))
  {
    var k := FirstIndex(s, '/');
    CatStar(SEGMENT, r, s);
    if 0 < k < |s| {
      SegmentPrefix(s, k + 1);
    }
    forall j | 0 < j <= |s| && In(SEGMENT, s[..j]) ensures 0 < k < |s| && j == k + 1 {
      SegmentPrefix(s, j);
    }
  }

  /** The left-to-right matcher decides the language of the emitted expression. */
  lemma {:induction false} RunIsIn(pieces: seq<Piece>, s: string)
    requires Simple(pieces)
    ensures Run(pieces, s) <==> In(Denote(pieces), s)
    decreases |pieces|, |s|
  {
    if pieces != [] {
      var rest := Denote(pieces[1..]);
      RunIsIn(pieces[1..], s);
      match pieces[0] {
        case Lit(c) =>
          CatOne(Only(c), rest, s);
          if s != "" { RunIsIn(pieces[1..], s[1..]); }
        case NotSlash =>
          CatOne(ButSlash, rest, s);
          if s != "" { RunIsIn(pieces[1..], s[1..]); }
        case NotSlashRun =>
          CatStarOne(ButSlash, rest, s);
          if s != "" { RunIsIn(pieces, s[1..]); }
        case AnyRun =>
          CatStarOne(ButLineEnd, rest, s);
          if s != "" { RunIsIn(pieces, s[1..]); }
        case SegmentRun =>
          CatSegments(rest, s);
          var k := FirstIndex(s, '/');
          if 0 < k < |s| { RunIsIn(pieces, s[k + 1..]); }
      }
    }
  }

  // ----- the pieces of a plain pattern, segment by segment -----

  function CharPiece(c: char): Piece {
    if c == '*' then NotSlashRun else if c == '?' then NotSlash else Lit(c)
  }

  function SegmentPieces(p: string): seq<Piece> {
    if p == "" then [] else [CharPiece(p[0])] + SegmentPieces(p[1..])
  }

  function PathPieces(ps: seq<string>): seq<Piece> {
    if ps == [] then []
    else if ps == ["**"] then [AnyRun]
    else if ps[0] == "**" then [SegmentRun] + PathPieces(ps[1..])
    else if |ps| == 1 then SegmentPieces(ps[0])
    else SegmentPieces(ps[0]) + ([Lit('/')] + PathPieces(ps[1..]))
  }

  ghost predicate PlainChars(s: string) {
    forall c <- s :: c != '[' && c != '{' && c != '}'
  }

  /** Inside a segment, from `j` on to its end `e`. */
  lemma {:induction false} TranslateSegment(source: string, j: nat, e: nat)
    requires j <= e <= |source| && (e < |source| ==> source[e] == '/')
    requires PlainChars(source) && '/' !in source[j..e] && StarsApart(source[j..e])
    ensures Translate(source, j, 0) == Prepend(SegmentPieces(source[j..e]), Translate(source, e, 0))
    decreases e - j
  {
    var p := source[j..e];
    var rest := Translate(source, e, 0);
    if j == e {
      assert rest.Pieces? ==> [] + rest.pieces == rest.pieces;
    } else {
      assert p[0] == source[j] && p[1..] == source[j + 1..e];
      assert source[j] in source && source[j] in p;
      assert j + 1 < e ==> p[1] == source[j + 1];
      TranslateSegment(source, j + 1, e);
      assert TranslateToken(source, j, 0) == Token(CharPiece(source[j]), j + 1, 0);
      PrependPrepend([CharPiece(source[j])], SegmentPieces(p[1..]), rest);
    }
  }

  /** A whole segment `**` and, unless it is the last, its slash. */
  lemma TranslateStars(source: string, i: nat)
    requires i + 2 <= |source| && (i > 0 ==> source[i - 1] == '/') && source[i..i + 2] == "**"
    requires i + 2 < |source| ==> source[i + 2] == '/'
    ensures Translate(source, i, 0) ==
            if i + 2 == |source| then Pieces([AnyRun]) else Prepend([SegmentRun], Translate(source, i + 3, 0))
  {
    assert source[i..i + 2][0] == source[i] && source[i..i + 2][1] == source[i + 1];
    assert [AnyRun] + [] == [AnyRun];
  }

  /** From the start of a segment to the end of the pattern. */
  lemma {:induction false} TranslatePath(source: string, i: nat, ps: seq<string>)
    requires i <= |source| && (i > 0 ==> source[i - 1] == '/')
    requires PlainChars(source) && ps == Split(source[i..], '/')
    requires PlainSegments(ps)
    ensures Translate(source, i, 0) == Pieces(PathPieces(ps))
    decreases |source| - i
  {
    var e := SegmentEnd(source, i, ps);
    if e < |source| {
      TranslatePath(source, e + 1, ps[1..]);
      TranslateFirst(source, i, e, ps[1..]);
    } else {
      TranslateLast(source, i, ps[0]);
    }
  }

  /** Where the first segment of a tail ends. */
  lemma SegmentEnd(source: string, i: nat, ps: seq<string>) returns (e: nat)
    requires i <= |source| && ps == Split(source[i..], '/')
    ensures i <= e <= |source| && ps[0] == source[i..e] && '/' !in ps[0]
    ensures if e < |source| then source[e] == '/' && ps[1..] == Split(source[e + 1..], '/') && ps == [source[i..e]] + ps[1..]
            else ps == [ps[0]]
  {
    var tail := source[i..];
    var k := FirstIndex(tail, '/');
    e := i + k;
    FirstIndexFirst(tail, '/');
    assert tail[..k] == source[i..e];
    if e < |source| {
      DropDrop(source, i, k + 1);
    } else {
      assert tail[..k] == tail;
    }
  }

  lemma TranslateFirst(source: string, i: nat, e: nat, others: seq<string>)
    requires i <= e < |source| && (i > 0 ==> source[i - 1] == '/') && source[e] == '/'
    requires PlainChars(source) && '/' !in source[i..e] && (source[i..e] == "**" || StarsApart(source[i..e]))
    requires others != [] && Translate(source, e + 1, 0) == Pieces(PathPieces(others))
    ensures Translate(source, i, 0) == Pieces(PathPieces([source[i..e]] + others))
  {
    DropPrefix([source[i..e]], others);
    if source[i..e] == "**" {
      TranslateStars(source, i);
    } else {
      SegmentThenSlash(source, i, e);
    }
  }

  lemma TranslateLast(source: string, i: nat, p: string)
    requires i <= |source| && (i > 0 ==> source[i - 1] == '/')
    requires PlainChars(source) && p == source[i..|source|] && '/' !in p && (p == "**" || StarsApart(p))
    ensures Translate(source, i, 0) == Pieces(PathPieces([p]))
  {
    if p == "**" {
      TranslateStars(source, i);
    } else {
      TranslateSegment(source, i, |source|);
      assert SegmentPieces(p) + [] == SegmentPieces(p);
    }
  }

  lemma SegmentThenSlash(source: string, i: nat, e: nat)
    requires i <= e < |source| && source[e] == '/'
    requires PlainChars(source) && '/' !in source[i..e] && StarsApart(source[i..e])
    ensures Translate(source, i, 0) == Prepend(SegmentPieces(source[i..e]), Prepend([Lit('/')], Translate(source, e + 1, 0)))
  {
    TranslateSegment(source, i, e);
  }

  // ----- matching the pieces segment by segment -----

  lemma {:induction false} SimpleAppend(a: seq<Piece>, b: seq<Piece>)
    requires Simple(a) && Simple(b)
    ensures Simple(a + b)
  {
    if a == [] {
      assert a + b == b;
    } else {
      SimpleAppend(a[1..], b);
      assert (a + b)[1..] == a[1..] + b;
    }
  }

  lemma {:induction false} SegmentPiecesSimple(p: string)
    ensures Simple(SegmentPieces(p))
  {
    if p != "" {
      SegmentPiecesSimple(p[1..]);
      assert SegmentPieces(p)[1..] == SegmentPieces(p[1..]);
    }
  }

  lemma {:induction false} PathPiecesSimple(ps: seq<string>)
    ensures Simple(PathPieces(ps))
  {
    if ps != [] && ps != ["**"] {
      PathPiecesSimple(ps[1..]);
      SegmentPiecesSimple(ps[0]);
      assert ([Lit('/')] + PathPieces(ps[1..]))[1..] == PathPieces(ps[1..]);
      assert ([SegmentRun] + PathPieces(ps[1..]))[1..] == PathPieces(ps[1..]);
      SimpleAppend(SegmentPieces(ps[0]), [Lit('/')] + PathPieces(ps[1..]));
    }
  }

  /** A segment that ends the pattern. */
  lemma {:induction false} RunLastSegment(p: string, s: string)
    requires '/' !in p && Simple(SegmentPieces(p))
    ensures Run(SegmentPieces(p), s) <==> '/' !in s && SegmentMatches(p, s)
    decreases |p|, |s|
  {
    if p != "" {
      SegmentTail(p);
      assert p[0] in p;
      RunLastSegment(p[1..], s);
      if s != "" {
        SlashTail(s);
        RunLastSegment(p[1..], s[1..]);
        if p[0] == '*' { RunLastSegment(p, s[1..]); }
      }
    }
  }

  lemma SegmentTail(p: string)
    requires p != "" && '/' !in p && Simple(SegmentPieces(p))
    ensures SegmentPieces(p)[1..] == SegmentPieces(p[1..]) && '/' !in p[1..] && Simple(SegmentPieces(p[1..]))
  {
    assert SegmentPieces(p)[1..] == SegmentPieces(p[1..]);
  }

  lemma SlashTail(s: string)
    requires s != ""
    ensures '/' in s <==> s[0] == '/' || '/' in s[1..]
  {
    assert s == [s[0]] + s[1..];
  }

  /** A segment that a slash follows in the pattern. */
  lemma {:induction false} RunSegment(p: string, tail: seq<Piece>, s: string)
    requires '/' !in p && Simple(SegmentPieces(p) + ([Lit('/')] + tail)) && Simple(tail)
    ensures var k := FirstIndex(s, '/');
            Run(SegmentPieces(p) + ([Lit('/')] + tail), s) <==> k < |s| && SegmentMatches(p, s[..k]) && Run(tail, s[k + 1..])
    decreases |p|, |s|
  {
    var pieces := SegmentPieces(p) + ([Lit('/')] + tail);
    var k := FirstIndex(s, '/');
    if p == "" {
      assert pieces == [Lit('/')] + tail;
      assert pieces[1..] == tail;
      if k < |s| && k > 0 { assert s[..k] != ""; }
    } else {
      assert p[0] in p;
      assert pieces[1..] == SegmentPieces(p[1..]) + ([Lit('/')] + tail);
      RunSegment(p[1..], tail, s);
      if s != "" && s[0] != '/' {
        FirstIndexTail(s, '/');
        RunSegment(p[1..], tail, s[1..]);
        if p[0] == '*' { RunSegment(p, tail, s[1..]); }
      } else {
        assert s[..k] == "";
      }
    }
  }

  lemma FirstIndexTail(s: string, c: char)
    requires s != "" && s[0] != c
    ensures var k := FirstIndex(s, c);
            && k > 0 && FirstIndex(s[1..], c) == k - 1
            && s[..k][1..] == s[1..][..k - 1] && s[..k] != "" && s[..k][0] == s[0]
            && (k < |s| ==> s[1..][k..] == s[k + 1..])
  {}

  ghost predicate NoLineEnds(s: string) {
    forall c <- s :: !IsLineEnd(c)
  }

  lemma {:induction false} AnyRunMatchesAll(s: string)
    requires NoLineEnds(s)
    ensures Run([AnyRun], s)
  {
    if s != "" {
      assert s[0] in s;
      assert forall c <- s[1..] :: c in s;
      AnyRunMatchesAll(s[1..]);
    }
  }

  lemma {:induction false} RunPath(ps: seq<string>, s: string)
    requires ps != [] && (forall p <- ps :: '/' !in p) && NoLineEnds(s) && Simple(PathPieces(ps))
    ensures Run(PathPieces(ps), s) <==> PathMatches(ps, Split(s, '/'))
    decreases |ps|, |s|
  {
    var k := FirstIndex(s, '/');
    var xs := Split(s, '/');
    FirstIndexFirst(s, '/');
    assert ps[0] in ps;
    if ps == ["**"] {
      AnyRunMatchesAll(s);
    } else if ps[0] == "**" {
      PathPiecesSimple(ps[1..]);
      assert PathPieces(ps)[1..] == PathPieces(ps[1..]);
      assert forall p <- ps[1..] :: p in ps;
      RunPath(ps[1..], s);
      if k < |s| {
        assert xs[1..] == Split(s[k + 1..], '/');
        assert forall c <- s[k + 1..] :: c in s;
        RunPath(ps, s[k + 1..]);
      } else {
        assert xs[1..] == [];
        NothingMatchesEmpty(ps);
      }
    } else if |ps| == 1 {
      RunLastSegment(ps[0], s);
      assert PathMatches(ps[1..], xs[1..]) <==> xs[1..] == [];
      if k == |s| { assert s[..k] == s; }
    } else {
      PathPiecesSimple(ps[1..]);
      RunSegment(ps[0], PathPieces(ps[1..]), s);
      assert forall p <- ps[1..] :: p in ps;
      if k < |s| {
        assert xs[1..] == Split(s[k + 1..], '/');
        assert forall c <- s[k + 1..] :: c in s;
        RunPath(ps[1..], s[k + 1..]);
      } else {
        assert xs[1..] == [];
        NothingMatchesEmpty(ps[1..]);
      }
    }
  }

  lemma {:induction false} NothingMatchesEmpty(ps: seq<string>)
    requires ps != []
    ensures !PathMatches(ps, [])
  {
    if ps[0] == "**" && ps != ["**"] {
      NothingMatchesEmpty(ps[1..]);
    }
  }

  // ----- the main result -----

  /** For a plain pattern and a path without line terminators, the emitted expression accepts the path exactly when
      the segment matcher does. */
  lemma CompilationPreservesMeaning(pattern: string, path: string)
    requires ToPosix(pattern) != "" && IsPlain(ToPosix(pattern)) && NoLineEnds(ToPosix(path))
    ensures var outcome := Compiled(pattern);
            && outcome.Pieces? && Simple(outcome.pieces)
            && (In(Denote(outcome.pieces), ToPosix(path)) <==> PathMatches(Split(ToPosix(pattern), '/'), Split(ToPosix(path), '/')))
  {
    var source, ps := ToPosix(pattern), Split(ToPosix(pattern), '/');
    assert source[0..] == source;
    TranslatePath(source, 0, ps);
    PathPiecesSimple(ps);
    RunIsIn(PathPieces(ps), ToPosix(path));
    SplitPieces(source, '/');
    RunPath(ps, ToPosix(path));
  }

  /** A non-final `**` stands for zero or more non-empty segments. */
  lemma {:induction false} StarStarSkips(ps: seq<string>, xs: seq<string>)
    requires |ps| >= 2 && ps[0] == "**"
    ensures PathMatches(ps, xs) <==> exists k :: 0 <= k <= |xs| && (forall j :: 0 <= j < k ==> xs[j] != "") && PathMatches(ps[1..], xs[k..])
    decreases |xs|
  {
    if PathMatches(ps[1..], xs) {
      assert xs[0..] == xs;
    } else if xs != [] {
      StarStarSkips(ps, xs[1..]);
      if xs[0] != "" && PathMatches(ps, xs[1..]) {
        var k :| 0 <= k <= |xs[1..]| && (forall j :: 0 <= j < k ==> xs[1..][j] != "") && PathMatches(ps[1..], xs[1..][k..]);
        assert xs[1..][k..] == xs[k + 1..];
        forall j | 0 <= j < k + 1 ensures xs[j] != "" {
          assert j > 0 ==> xs[1..][j - 1] == xs[j];
        }
      }
      forall k | 0 <= k <= |xs| && (forall j :: 0 <= j < k ==> xs[j] != "") && PathMatches(ps[1..], xs[k..])
        ensures xs[0] != "" && PathMatches(ps, xs[1..])
      {
        assert k > 0 by { assert xs[0..] == xs; }
        assert xs[1..][k - 1..] == xs[k..];
        assert forall j :: 0 <= j < k - 1 ==> xs[1..][j] == xs[j + 1];
      }
    } else {
      assert forall k :: 0 <= k <= |xs| ==> xs[k..] == xs;
    }
  }
}
