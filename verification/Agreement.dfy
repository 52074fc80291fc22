/** Exactly which regions each search strategy reports, told by the lines of the file and of the search block
    (packages/apply/src/match.ts). */
module Agreement {
  import opened Text
  import opened Match
  import opened MatchFacts
  import opened Words
  import Reindent
  import Tolerance

  // ----- elision lines -----

  predicate White(s: string) {
    forall c <- s :: IsSpace(c)
  }

  predicate RunOf(m: string, c: char, least: nat) {
    |m| >= least && forall k :: 0 <= k < |m| ==> m[k] == c
  }

  /** What may stand in front of the dots. */
  predicate CommentMark(m: string) {
    || m == "" || m == "<!--"
    || RunOf(m, '/', 2) || RunOf(m, '#', 1) || RunOf(m, '-', 2) || RunOf(m, ';', 1) || RunOf(m, '*', 1)
    || (m != "" && m[0] == '/' && RunOf(m[1..], '*', 1))
  }

  /** White space, a comment mark, white space, three dots, and anything. */
  predicate ElidesAs(line: string, a: string, m: string, b: string, rest: string) {
    White(a) && CommentMark(m) && White(b) && line == a + (m + (b + ("..." + rest)))
  }

  ghost predicate Elision(line: string) {
    exists a, m, b, rest :: ElidesAs(line, a, m, b, rest)
  }

  lemma {:induction false} DropRunIs(s: string, c: char) returns (m: string)
    ensures RunOf(m, c, 0) && s == m + DropRun(s, c) && (DropRun(s, c) != "" ==> DropRun(s, c)[0] != c)
  {
    if s != "" && s[0] == c {
      var rest := DropRunIs(s[1..], c);
      m := [c] + rest;
      assert s == [c] + s[1..];
      Regroup([c], rest, DropRun(s, c));
    } else {
      m := "";
    }
  }

  lemma {:induction false} TrimStartWhite(s: string) returns (b: string)
    ensures White(b) && s == b + TrimStart(s)
  {
    TrimStartIs(s);
    b := s[..|s| - |TrimStart(s)|];
  }

  lemma RunAtLeast(t: string, c: char, m: string, front: string)
    requires RunOf(m, c, 0) && t == m + DropRun(t, c) && front <= t && RunOf(front, c, 1)
    requires DropRun(t, c) != "" ==> DropRun(t, c)[0] != c
    ensures |m| >= |front|
  {
    var rest := DropRun(t, c);
    assert rest != "" ==> t[|m|] == rest[0];
  }

  lemma MarkedBy(t: string, c: char, front: string) returns (m: string, b: string)
    requires front <= t && RunOf(front, c, 1)
    ensures RunOf(m, c, |front|) && White(b) && t == m + (b + TrimStart(DropRun(t, c)))
  {
    m := DropRunIs(t, c);
    RunAtLeast(t, c, m, front);
    b := TrimStartWhite(DropRun(t, c));
  }

  /** What the comment prefix of a trimmed line is. */
  lemma PrefixIs(t: string) returns (m: string, b: string)
    ensures CommentMark(m) && White(b) && t == m + (b + DropCommentPrefix(t))
  {
    if "//" <= t { m, b := MarkedBy(t, '/', "//"); }
    else if "#" <= t { m, b := MarkedBy(t, '#', "#"); }
    else if "--" <= t { m, b := MarkedBy(t, '-', "--"); }
    else if ";" <= t { m, b := MarkedBy(t, ';', ";"); }
    else if "/*" <= t { m, b := StarMark(t); }
    else if "*" <= t { m, b := MarkedBy(t, '*', "*"); }
    else if "<!--" <= t {
      m := "<!--";
      b := TrimStartWhite(t[4..]);
      assert t == m + t[4..];
    } else {
      m, b := "", "";
      assert t == "" + ("" + t);
    }
  }

  lemma StarMark(t: string) returns (m: string, b: string)
    requires "/*" <= t
    ensures CommentMark(m) && White(b) && t == m + (b + TrimStart(DropRun(t[1..], '*')))
  {
    assert t[1] == '*';
    var stars;
    stars, b := MarkedBy(t[1..], '*', "*");
    m := "/" + stars;
    assert m[1..] == stars;
    assert t == "/" + t[1..];
    Regroup("/", stars, b + TrimStart(DropRun(t[1..], '*')));
  }

  // ----- and back -----

  lemma {:induction false} WhiteTrimmed(a: string, t: string)
    requires White(a)
    ensures TrimStart(a + t) == TrimStart(t)
  {
    if a == "" {
      assert a + t == t;
    } else {
      assert a[0] in a;
      assert forall c <- a[1..] :: c in a;
      WhiteTrimmed(a[1..], t);
      assert (a + t)[1..] == a[1..] + t;
    }
  }

  lemma {:induction false} DropRunOf(m: string, c: char, t: string)
    requires RunOf(m, c, 0) && (t != "" ==> t[0] != c)
    ensures DropRun(m + t, c) == t
  {
    if m == "" {
      assert m + t == t;
    } else {
      DropRunOf(m[1..], c, t);
      assert (m + t)[1..] == m[1..] + t;
    }
  }

  /** Behind a comment mark, white space and dots. */
  predicate Dotted(u: string, b: string, rest: string) {
    White(b) && u == b + ("..." + rest)
  }

  lemma DottedStarts(u: string, b: string, rest: string)
    requires Dotted(u, b, rest)
    ensures u != "" && (IsSpace(u[0]) || u[0] == '.') && TrimStart(u) == "..." + rest
  {
    assert b != "" ==> u[0] == b[0] && b[0] in b;
    WhiteTrimmed(b, "..." + rest);
  }

  lemma RunDropped(m: string, c: char, u: string, b: string, rest: string)
    requires RunOf(m, c, 0) && Dotted(u, b, rest) && c != '.' && !IsSpace(c)
    ensures TrimStart(DropRun(m + u, c)) == "..." + rest
  {
    DottedStarts(u, b, rest);
    DropRunOf(m, c, u);
  }

  lemma MarkDropped(t: string, m: string, u: string, b: string, rest: string)
    requires CommentMark(m) && m != "" && Dotted(u, b, rest) && t == m + u
    ensures DropCommentPrefix(t) == "..." + rest
  {
    DottedStarts(u, b, rest);
    if RunOf(m, '/', 2) {
      assert t[0] == '/' && t[1] == '/';
      RunDropped(m, '/', u, b, rest);
    } else if RunOf(m, '#', 1) {
      assert t[0] == '#';
      RunDropped(m, '#', u, b, rest);
    } else if RunOf(m, '-', 2) {
      assert t[0] == '-' && t[1] == '-';
      RunDropped(m, '-', u, b, rest);
    } else if RunOf(m, ';', 1) {
      assert t[0] == ';';
      RunDropped(m, ';', u, b, rest);
    } else if RunOf(m, '*', 1) {
      assert t[0] == '*';
      RunDropped(m, '*', u, b, rest);
    } else if m == "<!--" {
      assert t[4..] == u && t[0] == '<' && t[..4] == m;
    } else {
      assert t[0] == '/' && t[1] == m[1..][0] == '*' && t[1..] == m[1..] + u;
      RunDropped(m[1..], '*', u, b, rest);
    }
  }

  lemma PlainDots(rest: string)
    ensures DropCommentPrefix("..." + rest) == "..." + rest
  {
    assert ("..." + rest)[0] == '.';
  }

  lemma {:induction false} DotsTrimmed(rest: string) returns (r: string)
    ensures TrimEnd("..." + rest) == "..." + r
    decreases |rest|
  {
    var s := "..." + rest;
    if rest == "" {
      r := "";
      assert s == "..." && s[|s| - 1] == '.';
    } else if IsSpace(rest[|rest| - 1]) {
      assert s[..|s| - 1] == "..." + rest[..|rest| - 1];
      r := DotsTrimmed(rest[..|rest| - 1]);
    } else {
      r := rest;
    }
  }

  /** A trimmed line, taken apart. */
  lemma ElisionTrims(line: string, a: string, m: string, b: string, rest: string) returns (r: string)
    requires ElidesAs(line, a, m, b, rest)
    ensures Trim(line) == if m == "" then "..." + r else m + (b + ("..." + r))
  {
    r := DotsTrimmed(rest);
    var w := a + (m + b);
    assert line == w + ("..." + rest);
    Reindent.TrimEndAppend(w, "..." + rest);
    assert TrimEnd(line) == a + (m + (b + ("..." + r)));
    WhiteTrimmed(a, m + (b + ("..." + r)));
    if m == "" {
      assert m + (b + ("..." + r)) == b + ("..." + r);
      WhiteTrimmed(b, "..." + r);
    } else {
      MarkNotSpace(m);
      assert (m + (b + ("..." + r)))[0] == m[0];
    }
  }

  lemma MarkNotSpace(m: string)
    requires CommentMark(m) && m != ""
    ensures !IsSpace(m[0])
  {}

  /** The test for a line that says that something was left out. */
  lemma ElisionIff(line: string)
    ensures IsElisionLine(line) <==> Elision(line)
  {
    if IsElisionLine(line) {
      ElisionFound(line);
    }
    if a, m, b, rest :| ElidesAs(line, a, m, b, rest) {
      var r := ElisionTrims(line, a, m, b, rest);
      if m == "" {
        PlainDots(r);
      } else {
        MarkDropped(Trim(line), m, b + ("..." + r), b, r);
      }
    }
  }

  lemma ElisionFound(line: string)
    requires IsElisionLine(line)
    ensures Elision(line)
  {
    var e := TrimEnd(line);
    TrimEndIs(line);
    var z := line[|e|..];
    var a := TrimStartWhite(e);
    var t := TrimStart(e);
    var m, b := PrefixIs(t);
    var d := DropCommentPrefix(t);
    PrefixRest("...", d);
    assert line == e + z;
    Assemble(line, e, z, a, t, m, b, d, d[3..]);
    assert ElidesAs(line, a, m, b, d[3..] + z);
  }

  lemma Assemble(line: string, e: string, z: string, a: string, t: string, m: string, b: string, d: string, rest: string)
    requires line == e + z && e == a + t && t == m + (b + d) && d == "..." + rest
    ensures line == a + (m + (b + ("..." + (rest + z))))
  {
    Regroup("...", rest, z);
    Regroup(b, d, z);
    Regroup(m, b + d, z);
    Regroup(a, t, z);
  }

  // ----- anchors around an elision -----

  /** Line `s` is the only one with the words of this text. */
  predicate OnlyLike(lines: seq<Line>, text: string, s: nat) {
    s < |lines| && forall i :: 0 <= i < |lines| ==> (SameWords(lines[i].text, text) <==> i == s)
  }

  /** The search block has an inner line that elides, its first and its last line have words, and each is like one line of
      the file only, the first before the last. */
  ghost predicate AnchoredAt(lines: seq<Line>, n: seq<string>, s: nat, e: nat) {
    && |n| >= 3 && (exists k :: 1 <= k < |n| - 1 && Elision(n[k]))
    && WordsOf(n[0]) != [] && WordsOf(n[|n| - 1]) != []
    && s < e && OnlyLike(lines, n[0], s) && OnlyLike(lines, n[|n| - 1], e)
  }

  lemma ElidesIff(n: seq<string>)
    ensures Elides(n) <==> |n| >= 3 && exists k :: 1 <= k < |n| - 1 && Elision(n[k])
  {
    forall k | 0 <= k < |n| ensures IsElisionLine(n[k]) <==> Elision(n[k]) {
      ElisionIff(n[k]);
    }
  }

  lemma {:induction false} PlacesOnly(keys: seq<string>, key: string, count: nat, s: nat)
    requires count <= |keys| && forall k :: 0 <= k < count ==> (keys[k] == key <==> k == s)
    ensures PlacesOf(keys, key, count) == if s < count then [s] else []
  {
    if count > 0 {
      PlacesOnly(keys, key, count - 1, s);
    }
  }

  lemma PlacesOne(keys: seq<string>, key: string, s: nat)
    requires s < |keys|
    ensures PlacesOf(keys, key, |keys|) == [s] <==> forall k :: 0 <= k < |keys| ==> (keys[k] == key <==> k == s)
  {
    if PlacesOf(keys, key, |keys|) == [s] {
      forall k: nat | k < |keys| ensures keys[k] == key <==> k == s {
        PlacesOfIs(keys, key, |keys|, k);
      }
    }
    if forall k :: 0 <= k < |keys| ==> (keys[k] == key <==> k == s) {
      PlacesOnly(keys, key, |keys|, s);
    }
  }

  lemma OnlyLikeIff(lines: seq<Line>, text: string, s: nat)
    requires s < |lines|
    ensures OnlyLike(lines, text, s) <==> PlacesOf(Keys(lines), NormalizeWhitespace(text), |lines|) == [s]
  {
    PlacesOne(Keys(lines), NormalizeWhitespace(text), s);
    forall i | 0 <= i < |lines| ensures Keys(lines)[i] == NormalizeWhitespace(text) <==> SameWords(lines[i].text, text) {
      SameNormalizedIff(lines[i].text, text);
    }
  }

  lemma SpanIff(lines: seq<Line>, first: string, last: string, s: nat, e: nat)
    ensures AnchorSpan(Keys(lines), NormalizeWhitespace(first), NormalizeWhitespace(last)) == Some((s, e))
       <==> s < e && OnlyLike(lines, first, s) && OnlyLike(lines, last, e)
  {
    var keys, x, y := Keys(lines), NormalizeWhitespace(first), NormalizeWhitespace(last);
    if s < |lines| {
      OnlyLikeIff(lines, first, s);
    }
    if e < |lines| {
      OnlyLikeIff(lines, last, e);
    }
    SpanOf(keys, x, y, s, e);
  }

  lemma SpanOf(keys: seq<string>, x: string, y: string, s: nat, e: nat)
    ensures AnchorSpan(keys, x, y) == Some((s, e))
       <==> s < e < |keys| && PlacesOf(keys, x, |keys|) == [s] && PlacesOf(keys, y, |keys|) == [e]
  {
    var starts, ends := PlacesOf(keys, x, |keys|), PlacesOf(keys, y, |keys|);
    if ends == [e] {
      PlacesOfIs(keys, y, |keys|, e);
    }
  }

  lemma SpanReported(lines: seq<Line>, x: string, y: string, s: nat, e: nat)
    requires x != "" && y != "" && AnchorSpan(Keys(lines), x, y) == Some((s, e))
    ensures s < e < |lines| && AnchoredBetween(lines, x, y) == [WindowAt(lines, e - s + 1, s, Anchored, None)]
  {
    SpanIs(lines, AnchorSpan(Keys(lines), x, y), s, e);
  }

  lemma SpanIs(lines: seq<Line>, span: Option<(nat, nat)>, s: nat, e: nat)
    requires span == Some((s, e)) && s < e < |lines|
    ensures SpanMatch(lines, span) == [WindowAt(lines, e - s + 1, s, Anchored, None)]
  {}

  lemma ReportedSpan(lines: seq<Line>, x: string, y: string, m: RawMatch) returns (s: nat, e: nat)
    requires m in AnchoredBetween(lines, x, y)
    ensures x != "" && y != "" && AnchorSpan(Keys(lines), x, y) == Some((s, e))
    ensures s < e < |lines| && m == WindowAt(lines, e - s + 1, s, Anchored, None)
  {
    s, e := SpanMatchIs(lines, AnchorSpan(Keys(lines), x, y), m);
  }

  lemma FoundBetween(lines: seq<Line>, first: string, last: string, s: nat, e: nat)
    requires NormalizeWhitespace(first) != "" && NormalizeWhitespace(last) != ""
    requires s < e && OnlyLike(lines, first, s) && OnlyLike(lines, last, e)
    ensures AnchoredBetween(lines, NormalizeWhitespace(first), NormalizeWhitespace(last)) == [WindowAt(lines, e - s + 1, s, Anchored, None)]
  {
    SpanIff(lines, first, last, s, e);
    SpanReported(lines, NormalizeWhitespace(first), NormalizeWhitespace(last), s, e);
  }

  lemma BetweenFound(lines: seq<Line>, first: string, last: string, m: RawMatch) returns (s: nat, e: nat)
    requires m in AnchoredBetween(lines, NormalizeWhitespace(first), NormalizeWhitespace(last))
    ensures NormalizeWhitespace(first) != "" && NormalizeWhitespace(last) != ""
    ensures s < e && OnlyLike(lines, first, s) && OnlyLike(lines, last, e) && m == WindowAt(lines, e - s + 1, s, Anchored, None)
  {
    s, e := ReportedSpan(lines, NormalizeWhitespace(first), NormalizeWhitespace(last), m);
    SpanIff(lines, first, last, s, e);
  }

  /** The region from the one line like the first to the one line like the last line of a block that elides. */
  ghost predicate AnchoredMatch(lines: seq<Line>, n: seq<string>, m: RawMatch) {
    exists s: nat, e: nat :: AnchoredAt(lines, n, s, e) && m == WindowAt(lines, e - s + 1, s, Anchored, None)
  }

  lemma AnchoredIsFound(lines: seq<Line>, n: seq<string>, first: string, last: string, m: RawMatch)
    requires AnchoredMatch(lines, n, m) && first == n[0] && last == n[|n| - 1]
    ensures Elides(n) && AnchoredBetween(lines, NormalizeWhitespace(first), NormalizeWhitespace(last)) == [m]
  {
    ElidesIff(n);
    NormalizedBlankIff(first);
    NormalizedBlankIff(last);
    var s: nat, e: nat :| AnchoredAt(lines, n, s, e) && m == WindowAt(lines, e - s + 1, s, Anchored, None);
    FoundBetween(lines, first, last, s, e);
  }

  lemma FoundIsAnchored(lines: seq<Line>, n: seq<string>, first: string, last: string, m: RawMatch)
    requires Elides(n) && first == n[0] && last == n[|n| - 1]
    requires m in AnchoredBetween(lines, NormalizeWhitespace(first), NormalizeWhitespace(last))
    ensures AnchoredMatch(lines, n, m)
  {
    ElidesIff(n);
    NormalizedBlankIff(first);
    NormalizedBlankIff(last);
    var s, e := BetweenFound(lines, first, last, m);
    assert AnchoredAt(lines, n, s, e);
  }

  lemma AnchoredInIff(lines: seq<Line>, n: seq<string>, m: RawMatch)
    ensures m in AnchoredIn(lines, n) <==> AnchoredMatch(lines, n, m)
    ensures m in AnchoredIn(lines, n) ==> AnchoredIn(lines, n) == [m]
  {
    if Elides(n) && m in AnchoredIn(lines, n) {
      FoundIsAnchored(lines, n, n[0], n[|n| - 1], m);
    }
    if AnchoredMatch(lines, n, m) {
      AnchoredIsFound(lines, n, n[0], n[|n| - 1], m);
    }
  }

  /** A region is reported by the anchored strategy if and only if it is that one, and then it is the only one. */
  lemma AnchoredIff(haystack: string, needle: string, m: RawMatch)
    ensures m in AnchoredMatches(haystack, needle) <==> AnchoredMatch(Lines(haystack), NeedleLines(needle), m)
    ensures m in AnchoredMatches(haystack, needle) ==> AnchoredMatches(haystack, needle) == [m]
  {
    AnchoredInIff(Lines(haystack), NeedleLines(needle), m);
  }

  // ----- white space -----

  /** The line begins with exactly this indentation. */
  predicate Leads(line: string, lead: string) {
    lead <= line && (forall c <- lead :: IsIndent(c)) && (|lead| < |line| ==> !IsIndent(line[|lead|]))
  }

  lemma LeadsIff(line: string, lead: string)
    ensures Leads(line, lead) <==> lead == LeadingWhitespace(line)
  {
    var own := LeadingWhitespace(line);
    LeadingWhitespaceIs(line);
    if Leads(line, lead) {
      assert forall k :: 0 <= k < |lead| ==> lead[k] == line[k] && lead[k] in lead;
      assert forall k :: 0 <= k < |own| ==> own[k] == line[k] && own[k] in own;
      assert |lead| == |own|;
    }
  }

  /** Both lines are blank, or they have the same indentation and the same words. */
  ghost predicate LinesAgree(h: string, n: string) {
    || (White(h) && White(n))
    || ((exists lead :: Leads(h, lead) && Leads(n, lead)) && SameWords(h, n))
  }

  lemma LinesAgreeIff(h: string, n: string)
    ensures SameNormalized(h, n) <==> LinesAgree(h, n)
  {
    IsBlankIff(h);
    IsBlankIff(n);
    SameNormalizedIff(h, n);
    LeadsIff(h, LeadingWhitespace(h));
    LeadsIff(n, LeadingWhitespace(n));
    if lead :| Leads(h, lead) && Leads(n, lead) {
      LeadsIff(h, lead);
      LeadsIff(n, lead);
    }
  }

  ghost predicate WindowAgrees(lines: seq<Line>, n: seq<string>, i: nat) {
    i + |n| <= |lines| && forall j :: 0 <= j < |n| ==> LinesAgree(lines[i + j].text, n[j])
  }

  lemma {:induction false} NormalizedWindowIff(lines: seq<Line>, n: seq<string>, i: nat, from: nat)
    requires i + |n| <= |lines| && from <= |n|
    ensures NormalizedWindow(lines, n, i, from) <==> forall j :: from <= j < |n| ==> LinesAgree(lines[i + j].text, n[j])
    decreases |n| - from
  {
    if from < |n| {
      LinesAgreeIff(lines[i + from].text, n[from]);
      NormalizedWindowIff(lines, n, i, from + 1);
    }
  }

  lemma NormalizedFoundIff(lines: seq<Line>, n: seq<string>, i: nat)
    requires n != []
    ensures NormalizedFound(lines, n, i) == if WindowAgrees(lines, n, i) then Some(WindowAt(lines, |n|, i, WhitespaceNormalized, None)) else None
  {
    if i + |n| <= |lines| {
      NormalizedWindowIff(lines, n, i, 0);
    }
  }

  /** A region is reported by the white-space strategy if and only if it is a window of lines that agree one by one. */
  lemma NormalizedIff(haystack: string, needle: string, m: RawMatch)
    ensures var lines, n := Lines(haystack), NeedleLines(needle);
            m in NormalizedMatches(haystack, needle)
            <==> exists i: nat :: WindowAgrees(lines, n, i) && m == WindowAt(lines, |n|, i, WhitespaceNormalized, None)
  {
    var lines, n := Lines(haystack), NeedleLines(needle);
    NormalizedUpToIs(lines, n, |lines|, m);
    forall i: nat
      ensures NormalizedFound(lines, n, i) == if WindowAgrees(lines, n, i) then Some(WindowAt(lines, |n|, i, WhitespaceNormalized, None)) else None
    {
      NormalizedFoundIff(lines, n, i);
    }
  }

  // ----- indentation -----

  /** The file line is the search line with `found` for `search`, or in front of its text where it is indented otherwise. */
  predicate Moved(h: string, n: string, found: string, search: string) {
    if White(n) then White(h)
    else TrimEnd(h) == TrimEnd(found + if search <= n then n[|search|..] else TrimStart(n))
  }

  /** Both indentations are those of the first search line that is not blank and of its file line, which is not blank
      either, and every line is moved from the one to the other. */
  predicate WindowMoved(lines: seq<Line>, n: seq<string>, i: nat, a: nat, found: string, search: string) {
    && i + |n| <= |lines| && a < |n| && !White(n[a]) && (forall k :: 0 <= k < a ==> White(n[k])) && !White(lines[i + a].text)
    && Leads(lines[i + a].text, found) && Leads(n[a], search)
    && forall j :: 0 <= j < |n| ==> Moved(lines[i + j].text, n[j], found, search)
  }

  lemma MovedIff(h: string, n: string, indents: Indents)
    ensures IndentSame(h, n, indents) <==> Moved(h, n, indents.found, indents.search)
  {
    IsBlankIff(h);
    IsBlankIff(n);
  }

  lemma {:induction false} FirstContentIs(n: seq<string>, from: nat, a: nat)
    requires from <= a < |n| && !White(n[a]) && forall k :: from <= k < a ==> White(n[k])
    ensures FirstContent(n, from) == a
    decreases a - from
  {
    IsBlankIff(n[from]);
    if from < a {
      FirstContentIs(n, from + 1, a);
    }
  }

  lemma {:induction false} BlankBefore(n: seq<string>, from: nat)
    requires from <= |n|
    ensures forall k :: from <= k < FirstContent(n, from) ==> White(n[k])
    decreases |n| - from
  {
    if from < |n| {
      IsBlankIff(n[from]);
      if IsBlank(n[from]) {
        BlankBefore(n, from + 1);
      }
    }
  }

  lemma AnchorFits(n: seq<string>, h: string, indents: Indents)
    requires FirstContent(n, 0) < |n| && !IsBlank(h)
    requires indents == Indents(LeadingWhitespace(h), LeadingWhitespace(n[FirstContent(n, 0)]))
    ensures var a := FirstContent(n, 0);
            && !White(n[a]) && (forall k :: 0 <= k < a ==> White(n[k])) && !White(h)
            && Leads(h, indents.found) && Leads(n[a], indents.search)
  {
    var a := FirstContent(n, 0);
    BlankBefore(n, 0);
    IsBlankIff(n[a]);
    IsBlankIff(h);
    LeadsIff(h, indents.found);
    LeadsIff(n[a], indents.search);
  }

  lemma AllMoved(lines: seq<Line>, n: seq<string>, i: nat, indents: Indents)
    requires i + |n| <= |lines|
    ensures IndentWindow(lines, n, i, indents, 0) <==> forall j :: 0 <= j < |n| ==> Moved(lines[i + j].text, n[j], indents.found, indents.search)
  {
    Reindent.IndentWindowIff(lines, n, i, indents, 0);
    forall j | 0 <= j < |n| ensures IndentSame(lines[i + j].text, n[j], indents) <==> Moved(lines[i + j].text, n[j], indents.found, indents.search) {
      MovedIff(lines[i + j].text, n[j], indents);
    }
  }

  lemma IndentFoundFits(lines: seq<Line>, n: seq<string>, i: nat) returns (a: nat, indents: Indents)
    requires IndentFound(lines, n, i).Some?
    ensures WindowMoved(lines, n, i, a, indents.found, indents.search)
    ensures IndentFound(lines, n, i).value == WindowAt(lines, |n|, i, IndentationTolerant, Some(indents))
  {
    a := FirstContent(n, 0);
    indents := Indents(LeadingWhitespace(lines[i + a].text), LeadingWhitespace(n[a]));
    AnchorFits(n, lines[i + a].text, indents);
    AllMoved(lines, n, i, indents);
  }

  lemma AnchorOf(lines: seq<Line>, n: seq<string>, i: nat, a: nat, indents: Indents)
    requires WindowMoved(lines, n, i, a, indents.found, indents.search)
    ensures a == FirstContent(n, 0) && !IsBlank(lines[i + a].text)
    ensures indents == Indents(LeadingWhitespace(lines[i + a].text), LeadingWhitespace(n[a]))
  {
    FirstContentIs(n, 0, a);
    IsBlankIff(lines[i + a].text);
    LeadsIff(lines[i + a].text, indents.found);
    LeadsIff(n[a], indents.search);
  }

  lemma FitsIndentFound(lines: seq<Line>, n: seq<string>, i: nat, a: nat, indents: Indents)
    requires WindowMoved(lines, n, i, a, indents.found, indents.search)
    ensures IndentFound(lines, n, i) == Some(WindowAt(lines, |n|, i, IndentationTolerant, Some(indents)))
  {
    AnchorOf(lines, n, i, a, indents);
    AllMoved(lines, n, i, indents);
    Tolerance.FoundWhere(lines, n, i, a, indents, true);
  }

  /** A region is reported by the indentation strategy if and only if it is a window of lines that are the search lines,
      moved. */
  lemma IndentIff(haystack: string, needle: string, m: RawMatch)
    ensures var lines, n := Lines(haystack), NeedleLines(needle);
            m in IndentMatches(haystack, needle)
            <==> exists i: nat, a: nat, indents: Indents ::
                   && WindowMoved(lines, n, i, a, indents.found, indents.search)
                   && m == WindowAt(lines, |n|, i, IndentationTolerant, Some(indents))
  {
    var lines, n := Lines(haystack), NeedleLines(needle);
    IndentUpToIs(lines, n, |lines|, m);
    if m in IndentMatches(haystack, needle) {
      var i: nat :| i < |lines| && IndentFound(lines, n, i) == Some(m);
      var a, indents := IndentFoundFits(lines, n, i);
    }
    if i: nat, a: nat, indents: Indents :| && WindowMoved(lines, n, i, a, indents.found, indents.search)
                                           && m == WindowAt(lines, |n|, i, IndentationTolerant, Some(indents)) {
      FitsIndentFound(lines, n, i, a, indents);
      assert i < |lines|;
    }
  }

  // ----- which strategy, and in which order -----

  /** How strict a strategy is. */
  function Level(s: Strategy): nat {
    match s
    case Exact => 0
    case WhitespaceNormalized => 1
    case IndentationTolerant => 2
    case Anchored => 3
  }

  /** No stricter strategy has a match. */
  predicate NoneStricter(haystack: string, needle: string, s: Strategy)
    requires needle != ""
  {
    forall t: Strategy | Level(t) < Level(s) :: Strategies(haystack, needle, t) == []
  }

  /** The matches are those of the strictest strategy that has any. */
  lemma MatchesAre(haystack: string, needle: string, s: Strategy)
    requires needle != "" && NoneStricter(haystack, needle, s) && (Strategies(haystack, needle, s) != [] || s == Anchored)
    ensures Matches(haystack, needle) == Strategies(haystack, needle, s)
  {
    assert Level(Exact) < Level(s) ==> Strategies(haystack, needle, Exact) == [];
    assert Level(WhitespaceNormalized) < Level(s) ==> Strategies(haystack, needle, WhitespaceNormalized) == [];
    assert Level(IndentationTolerant) < Level(s) ==> Strategies(haystack, needle, IndentationTolerant) == [];
  }

  lemma StrictestIs(haystack: string, needle: string, s: Strategy)
    requires needle != "" && (s != Exact ==> ExactMatches(haystack, needle) == [])
    requires s.IndentationTolerant? || s.Anchored? ==> NormalizedMatches(haystack, needle) == []
    requires s.Anchored? ==> IndentMatches(haystack, needle) == []
    ensures NoneStricter(haystack, needle, s)
  {
    forall t: Strategy | Level(t) < Level(s) ensures Strategies(haystack, needle, t) == [] {
      match t {
        case Exact =>
        case WhitespaceNormalized =>
        case IndentationTolerant =>
        case Anchored =>
      }
    }
  }

  lemma SomeStrategyDecides(haystack: string, needle: string) returns (s: Strategy)
    requires needle != ""
    ensures NoneStricter(haystack, needle, s) && (Strategies(haystack, needle, s) != [] || s == Anchored)
  {
    s := if ExactMatches(haystack, needle) != [] then Exact
    else if NormalizedMatches(haystack, needle) != [] then WhitespaceNormalized
    else if IndentMatches(haystack, needle) != [] then IndentationTolerant
    else Anchored;
    StrictestIs(haystack, needle, s);
  }

  // ----- in file order -----

  /** Every match begins behind the ones before it. */
  predicate InFileOrder(matches: seq<RawMatch>) {
    forall j, k :: 0 <= j < k < |matches| ==> matches[j].start < matches[k].start
  }

  lemma {:induction false} StartsAscend(text: string, lines: seq<Line>, i: nat, j: nat)
    requires IsIndex(text, lines) && i < j < |lines|
    ensures lines[i].start < lines[j].start
    decreases j - i
  {
    LineBegins(text, lines, j);
    LineInPlace(text, lines, j - 1);
    if i < j - 1 {
      StartsAscend(text, lines, i, j - 1);
    }
  }

  /** Windows of these lines, one behind the other, the last at `count - 1` at most. */
  predicate WindowsUpTo(lines: seq<Line>, matches: seq<RawMatch>, count: nat) {
    && (forall k :: 0 <= k < |matches| ==> 1 <= matches[k].line <= count && matches[k].line <= |lines| && matches[k].start == lines[matches[k].line - 1].start)
    && (forall j, k :: 0 <= j < k < |matches| ==> matches[j].line < matches[k].line)
  }

  lemma WindowsNext(lines: seq<Line>, matches: seq<RawMatch>, count: nat, m: RawMatch)
    requires WindowsUpTo(lines, matches, count) && m.line == count + 1 <= |lines| && m.start == lines[count].start
    ensures WindowsUpTo(lines, matches + [m], count + 1)
  {}

  lemma {:induction false} NormalizedInOrder(lines: seq<Line>, n: seq<string>, count: nat)
    ensures WindowsUpTo(lines, NormalizedUpTo(lines, n, count), count)
  {
    if count > 0 {
      NormalizedInOrder(lines, n, count - 1);
      match NormalizedFound(lines, n, count - 1) {
        case None =>
        case Some(m) => WindowsNext(lines, NormalizedUpTo(lines, n, count - 1), count - 1, m);
      }
    }
  }

  lemma {:induction false} IndentInOrder(lines: seq<Line>, n: seq<string>, count: nat)
    ensures WindowsUpTo(lines, IndentUpTo(lines, n, count), count)
  {
    if count > 0 {
      IndentInOrder(lines, n, count - 1);
      match IndentFound(lines, n, count - 1) {
        case None =>
        case Some(m) => WindowsNext(lines, IndentUpTo(lines, n, count - 1), count - 1, m);
      }
    }
  }

  lemma WindowsOrdered(text: string, lines: seq<Line>, matches: seq<RawMatch>, count: nat)
    requires IsIndex(text, lines) && WindowsUpTo(lines, matches, count)
    ensures InFileOrder(matches)
  {
    forall j, k | 0 <= j < k < |matches| ensures matches[j].start < matches[k].start {
      StartsAscend(text, lines, matches[j].line - 1, matches[k].line - 1);
    }
  }

  lemma ExactInOrder(haystack: string, needle: string)
    requires needle != ""
    ensures InFileOrder(ExactMatches(haystack, needle))
  {
    ExactIsGreedy(haystack, needle, 0);
    GreedyIsDisjoint(haystack, needle, 0);
    GreedyAscends(haystack, needle, Greedy(haystack, needle, 0));
  }

  lemma {:induction false} GreedyAscends(haystack: string, needle: string, places: seq<nat>)
    requires needle != "" && Disjoint(haystack, needle, places)
    ensures forall j, k :: 0 <= j < k < |places| ==> places[j] < places[k]
  {
    forall j, k | 0 <= j < k < |places| ensures places[j] < places[k] {
      Apart(haystack, needle, places, j, k);
    }
  }

  lemma {:induction false} Apart(haystack: string, needle: string, places: seq<nat>, j: nat, k: nat)
    requires needle != "" && Disjoint(haystack, needle, places) && j < k < |places|
    ensures places[j] < places[k]
    decreases k - j
  {
    if j < k - 1 {
      Apart(haystack, needle, places, j, k - 1);
    }
  }

  /** The matches of every strategy are in file order. */
  lemma StrategyInOrder(haystack: string, needle: string, s: Strategy)
    requires needle != ""
    ensures InFileOrder(Strategies(haystack, needle, s))
  {
    match s {
      case Exact => ExactInOrder(haystack, needle);
      case WhitespaceNormalized =>
        LinesIsIndex(haystack);
        NormalizedInOrder(Lines(haystack), NeedleLines(needle), |Lines(haystack)|);
        WindowsOrdered(haystack, Lines(haystack), NormalizedMatches(haystack, needle), |Lines(haystack)|);
      case IndentationTolerant =>
        LinesIsIndex(haystack);
        IndentInOrder(Lines(haystack), NeedleLines(needle), |Lines(haystack)|);
        WindowsOrdered(haystack, Lines(haystack), IndentMatches(haystack, needle), |Lines(haystack)|);
      case Anchored =>
        if AnchoredMatches(haystack, needle) != [] {
          AnchoredIff(haystack, needle, AnchoredMatches(haystack, needle)[0]);
        }
    }
  }

  lemma MatchesInOrder(haystack: string, needle: string)
    ensures InFileOrder(Matches(haystack, needle))
  {
    if needle != "" {
      var s := SomeStrategyDecides(haystack, needle);
      MatchesAre(haystack, needle, s);
      StrategyInOrder(haystack, needle, s);
    }
  }
}
