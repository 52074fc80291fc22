/** Text helpers shared by the models: the string operations of the JavaScript library that the sources
    call, with the facts the proofs need about them. */
module Text {

  datatype Option<+T> = None | Some(value: T)

  // ----- whitespace -----

  /** What `\s` and `trim` treat as whitespace (white space and line terminators of ECMAScript). */
  predicate IsSpace(c: char) {
    || c in " \t\n\r"
    || c == '\U{000B}' || c == '\U{000C}' || c == '\U{00A0}' || c == '\U{1680}'
    || '\U{2000}' <= c <= '\U{200A}'
    || c == '\U{2028}' || c == '\U{2029}' || c == '\U{202F}' || c == '\U{205F}' || c == '\U{3000}' || c == '\U{FEFF}'
  }

  predicate IsIndent(c: char) {
    c == ' ' || c == '\t'
  }

  /** `s.trim().length === 0` */
  predicate IsBlank(s: string) {
    s == "" || (IsSpace(s[0]) && IsBlank(s[1..]))
  }

  lemma {:induction false} IsBlankIff(s: string)
    ensures IsBlank(s) <==> forall c <- s :: IsSpace(c)
  {
    if s != "" {
      IsBlankIff(s[1..]);
      assert forall c <- s :: c == s[0] || c in s[1..];
      assert forall c <- s[1..] :: c in s;
      assert s[0] in s;
    }
  }

  // The leading run of blanks and tabs.
  function LeadingWhitespace(s: string): (r: string)
    ensures |r| <= |s|
  {
    if s != "" && IsIndent(s[0]) then [s[0]] + LeadingWhitespace(s[1..]) else ""
  }

  lemma {:induction false} LeadingWhitespaceIs(s: string)
    ensures var r := LeadingWhitespace(s);
            r <= s && (forall c <- r :: IsIndent(c)) && (|r| < |s| ==> !IsIndent(s[|r|]))
  {
    if s != "" && IsIndent(s[0]) {
      LeadingWhitespaceIs(s[1..]);
    }
  }

  function TrimEnd(s: string): (r: string)
    ensures |r| <= |s|
  {
    if s != "" && IsSpace(s[|s| - 1]) then TrimEnd(s[..|s| - 1]) else s
  }

  lemma {:induction false} TrimEndIs(s: string)
    ensures var r := TrimEnd(s);
            r == s[..|r|] && (forall c <- s[|r|..] :: IsSpace(c)) && (r != "" ==> !IsSpace(r[|r| - 1]))
  {
    if s != "" && IsSpace(s[|s| - 1]) {
      TrimEndIs(s[..|s| - 1]);
      var r := TrimEnd(s);
      assert s[|r|..] == s[..|s| - 1][|r|..] + [s[|s| - 1]];
    }
  }

  function TrimStart(s: string): (r: string)
    ensures |r| <= |s|
  {
    if s != "" && IsSpace(s[0]) then TrimStart(s[1..]) else s
  }

  lemma {:induction false} TrimStartIs(s: string)
    ensures var r := TrimStart(s);
            r == s[|s| - |r|..] && (forall c <- s[..|s| - |r|] :: IsSpace(c)) && (r != "" ==> !IsSpace(r[0]))
  {
    if s != "" && IsSpace(s[0]) {
      TrimStartIs(s[1..]);
      var r := TrimStart(s);
      assert s[..|s| - |r|] == [s[0]] + s[1..][..|s| - 1 - |r|];
    }
  }

  function Trim(s: string): string {
    TrimStart(TrimEnd(s))
  }

  /** The first line from `from` on that is not blank, or the number of lines. */
  function FirstContent(lines: seq<string>, from: nat): (k: nat)
    requires from <= |lines|
    ensures from <= k <= |lines| && (k < |lines| ==> !IsBlank(lines[k]))
    decreases |lines| - from
  {
    if from == |lines| || !IsBlank(lines[from]) then from else FirstContent(lines, from + 1)
  }

  // ----- sequences -----

  predicate Distinct<T(==)>(s: seq<T>) {
    forall i, j :: 0 <= i < j < |s| ==> s[i] != s[j]
  }

  lemma DropPrefix<T>(a: seq<T>, b: seq<T>)
    ensures (a + b)[|a|..] == b && (a + b)[..|a|] == a && a <= a + b
  {}

  lemma TakeDrop<T>(s: seq<T>, k: nat)
    requires k <= |s|
    ensures s[..k] + s[k..] == s
  {}

  lemma PrefixRest<T>(a: seq<T>, s: seq<T>)
    requires a <= s
    ensures a + s[|a|..] == s
  {}

  lemma DropDrop<T>(s: seq<T>, j: nat, k: nat)
    requires j + k <= |s|
    ensures s[j..][k..] == s[j + k..]
  {}

  lemma Regroup<A>(a: seq<A>, b: seq<A>, c: seq<A>)
    ensures (a + b) + c == a + (b + c)
  {}

  lemma ThreeParts<T>(a: seq<T>, b: seq<T>, c: seq<T>)
    ensures (a + (b + c))[..|a|] == a && (a + (b + c))[|a| + |b|..] == c
  {
    DropPrefix(a, b + c);
    DropPrefix(b, c);
    DropDrop(a + (b + c), |a|, |b|);
  }

  lemma SliceDrop<T>(s: seq<T>, d: nat, j: nat, k: nat)
    requires d <= j <= k <= |s|
    ensures s[d..][j - d..k - d] == s[j..k]
  {}

  // ----- searching -----

  /** `needle` stands at offset `at` of `s`. */
  predicate Occurs(s: string, needle: string, at: int) {
    0 <= at <= |s| - |needle| && s[at..at + |needle|] == needle
  }

  /** `s.indexOf(needle)` */
  function Find(s: string, needle: string): (r: Option<nat>)
    ensures r.Some? ==> r.value + |needle| <= |s|
  {
    if needle <= s then Some(0)
    else if s == "" then None
    else match Find(s[1..], needle)
      case None => None
      case Some(k) => Some(k + 1)
  }

  lemma OccursLater(s: string, needle: string, j: nat)
    requires s != "" && j > 0
    ensures Occurs(s, needle, j) == Occurs(s[1..], needle, j - 1)
  {
    if j <= |s| - |needle| { SliceDrop(s, 1, j, j + |needle|); }
  }

  lemma {:induction false} FindOccurs(s: string, needle: string)
    requires Find(s, needle).Some?
    ensures Occurs(s, needle, Find(s, needle).value)
  {
    if !(needle <= s) {
      FindOccurs(s[1..], needle);
      OccursLater(s, needle, Find(s, needle).value);
    }
  }

  lemma {:induction false} NoneBefore(s: string, needle: string, j: nat)
    requires Find(s, needle).Some? ==> j < Find(s, needle).value
    ensures !Occurs(s, needle, j)
  {
    if j > 0 && s != "" {
      NoneBefore(s[1..], needle, j - 1);
      OccursLater(s, needle, j);
    }
  }

  /** It is the leftmost occurrence. */
  lemma FindLeftmost(s: string, needle: string)
    ensures var r := Find(s, needle);
            && (r.Some? ==> Occurs(s, needle, r.value) && forall j :: 0 <= j < r.value ==> !Occurs(s, needle, j))
            && (r.None? ==> forall j :: !Occurs(s, needle, j))
  {
    var r := Find(s, needle);
    if r.Some? {
      FindOccurs(s, needle);
    }
    forall j: nat | r.Some? ==> j < r.value ensures !Occurs(s, needle, j) {
      NoneBefore(s, needle, j);
    }
  }

  /** What follows does not matter. */
  lemma {:induction false} FindMore(s: string, needle: string, b: string)
    requires Find(s, needle).Some?
    ensures Find(s + b, needle) == Find(s, needle)
  {
    if needle <= s {
      assert (s + b)[..|needle|] == s[..|needle|];
    } else {
      FindMore(s[1..], needle, b);
      assert (s + b)[1..] == s[1..] + b;
      assert |needle| <= |s|;
      assert (s + b)[..|needle|] == s[..|needle|];
    }
  }

  /** `s.indexOf(needle, from)` */
  function FindFrom(s: string, needle: string, from: nat): (r: Option<nat>)
    requires from <= |s|
    ensures r.Some? ==> from <= r.value && Occurs(s, needle, r.value)
    decreases |s| - from
  {
    if Occurs(s, needle, from) then Some(from)
    else if from == |s| then None
    else FindFrom(s, needle, from + 1)
  }

  lemma {:induction false} FindFromLeftmost(s: string, needle: string, from: nat)
    requires from <= |s|
    ensures var r := FindFrom(s, needle, from);
            forall j :: from <= j && (r.Some? ==> j < r.value) ==> !Occurs(s, needle, j)
    decreases |s| - from
  {
    if !Occurs(s, needle, from) && from < |s| {
      FindFromLeftmost(s, needle, from + 1);
    }
  }

  /** The offset of the first `c`, or the length of `s`. */
  function FirstIndex(s: string, c: char): (k: nat)
    ensures k <= |s| && (k < |s| ==> s[k] == c)
  {
    if s == "" || s[0] == c then 0 else 1 + FirstIndex(s[1..], c)
  }

  lemma {:induction false} FirstIndexFirst(s: string, c: char)
    ensures c !in s[..FirstIndex(s, c)]
  {
    if s != "" && s[0] != c {
      FirstIndexFirst(s[1..], c);
      assert s[..FirstIndex(s, c)] == [s[0]] + s[1..][..FirstIndex(s[1..], c)];
    }
  }

  lemma FirstIndexUnique(s: string, c: char, k: nat)
    requires k < |s| && c !in s[..k] && s[k] == c
    ensures FirstIndex(s, c) == k
  {
    var f := FirstIndex(s, c);
    FirstIndexFirst(s, c);
    forall j | 0 <= j < k ensures s[j] != c { assert s[j] in s[..k]; }
    forall j | 0 <= j < f ensures s[j] != c { assert s[j] in s[..f]; }
  }

  /** Number of newlines in `s`. */
  function Newlines(s: string): nat {
    if s == "" then 0 else Newlines(s[..|s| - 1]) + if s[|s| - 1] == '\n' then 1 else 0
  }

  lemma {:induction false} NewlinesAppend(s: string, t: string)
    ensures Newlines(s + t) == Newlines(s) + Newlines(t)
  {
    if t == "" {
      assert s + t == s;
    } else {
      assert (s + t)[..|s + t| - 1] == s + t[..|t| - 1];
      NewlinesAppend(s, t[..|t| - 1]);
    }
  }

  lemma {:induction false} NewlinesZero(s: string)
    requires '\n' !in s
    ensures Newlines(s) == 0
  {
    if s != "" {
      assert forall c <- s[..|s| - 1] :: c in s;
      NewlinesZero(s[..|s| - 1]);
    }
  }

  // ----- lines -----

  /** `s.split(sep)` for a one-character separator. */
  function Split(s: string, sep: char): (r: seq<string>)
    ensures |r| >= 1
    decreases |s|
  {
    var k := FirstIndex(s, sep);
    if k == |s| then [s] else [s[..k]] + Split(s[k + 1..], sep)
  }

  lemma {:induction false} SplitPieces(s: string, sep: char)
    ensures forall piece <- Split(s, sep) :: sep !in piece
    decreases |s|
  {
    var k := FirstIndex(s, sep);
    FirstIndexFirst(s, sep);
    if k < |s| {
      SplitPieces(s[k + 1..], sep);
    } else {
      assert s[..k] == s;
    }
  }

  /** `lines.join(sep)` */
  function Join(lines: seq<string>, sep: string): string {
    if |lines| == 0 then ""
    else if |lines| == 1 then lines[0]
    else lines[0] + (sep + Join(lines[1..], sep))
  }

  lemma JoinCons(first: string, others: seq<string>, sep: string)
    requires others != []
    ensures Join([first] + others, sep) == first + (sep + Join(others, sep))
  {
    DropPrefix([first], others);
  }

  lemma {:induction false} SplitStep(s: string, sep: char, k: nat)
    requires k < |s| && sep !in s[..k] && s[k] == sep
    ensures Split(s, sep) == [s[..k]] + Split(s[k + 1..], sep)
  {
    FirstIndexUnique(s, sep, k);
  }

  lemma {:induction false} SplitNone(s: string, sep: char)
    requires sep !in s
    ensures Split(s, sep) == [s]
  {
    assert FirstIndex(s, sep) == |s|;
  }

  /** Splitting undoes joining when no piece contains the separator. */
  lemma {:induction false} SplitJoin(pieces: seq<string>, sep: char)
    requires pieces != [] && forall p <- pieces :: sep !in p
    ensures Split(Join(pieces, [sep]), sep) == pieces
  {
    var s := Join(pieces, [sep]);
    if |pieces| == 1 {
      SplitNone(s, sep);
    } else {
      var k := |pieces[0]|;
      ThreeParts(pieces[0], [sep], Join(pieces[1..], [sep]));
      assert s[k] == sep;
      SplitStep(s, sep, k);
      SplitJoin(pieces[1..], sep);
    }
  }

  /** Joining undoes splitting. */
  lemma {:induction false} JoinSplit(s: string, sep: char)
    ensures Join(Split(s, sep), [sep]) == s
    decreases |s|
  {
    var k := FirstIndex(s, sep);
    if k < |s| {
      JoinSplit(s[k + 1..], sep);
      JoinCons(s[..k], Split(s[k + 1..], sep), [sep]);
      AroundChar(s, k);
    }
  }

  lemma AroundChar(s: string, k: nat)
    requires k < |s|
    ensures s[..k] + ([s[k]] + s[k + 1..]) == s
  {}

  /** A line with the carriage return of its `\r\n` terminator removed. */
  function DropCr(s: string): string {
    if s != "" && s[|s| - 1] == '\r' then s[..|s| - 1] else s
  }

  /** `s.split(/\r?\n/)` */
  function SplitLines(s: string): (r: seq<string>)
    ensures |r| >= 1
    decreases |s|
  {
    var k := FirstIndex(s, '\n');
    if k == |s| then [s] else [DropCr(s[..k])] + SplitLines(s[k + 1..])
  }

  lemma {:induction false} SplitLinesPieces(s: string)
    ensures forall line <- SplitLines(s) :: '\n' !in line
    decreases |s|
  {
    var k := FirstIndex(s, '\n');
    FirstIndexFirst(s, '\n');
    if k < |s| {
      SplitLinesPieces(s[k + 1..]);
      assert forall c <- DropCr(s[..k]) :: c in s[..k];
    } else {
      assert s[..k] == s;
    }
  }

  lemma {:induction false} SplitLinesStep(s: string, k: nat)
    requires k < |s| && '\n' !in s[..k] && s[k] == '\n'
    ensures SplitLines(s) == [DropCr(s[..k])] + SplitLines(s[k + 1..])
  {
    FirstIndexUnique(s, '\n', k);
  }
}
