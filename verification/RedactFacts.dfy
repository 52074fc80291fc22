/** What redaction guarantees, and exactly when (packages/mcp/src/redact.ts). */
module RedactFacts {
  import opened Text
  import opened Redact

  ghost predicate Absent(text: string, needle: string) {
    forall p :: !Occurs(text, needle, p)
  }

  // ----- where a needle can touch a replacement -----

  /** The needle, put at offset `d` of the replacement, agrees with it wherever the two overlap. */
  predicate AgreesAt(needle: string, d: int) {
    forall k :: 0 <= k < |needle| && 0 <= d + k < |REDACTED| ==> needle[k] == REDACTED[d + k]
  }

  /** What a caller can check: somewhere the needle can reach into a replacement. */
  predicate Touches(needle: string) {
    exists d :: -|needle| < d < |REDACTED| && AgreesAt(needle, d)
  }

  /** Between these two texts no occurrence of the needle reaches into the replacement. */
  ghost predicate ApartIn(x: string, y: string, needle: string) {
    forall p :: Occurs(x + (REDACTED + y), needle, p) ==> p + |needle| <= |x| || |x| + |REDACTED| <= p
  }

  /** Whatever stands around it. */
  ghost predicate Apart(needle: string) {
    forall x, y :: ApartIn(x, y, needle)
  }

  lemma OccursAt(s: string, needle: string, p: nat)
    requires p + |needle| <= |s|
    ensures Occurs(s, needle, p) <==> forall k :: 0 <= k < |needle| ==> s[p + k] == needle[k]
  {
    var part := s[p..p + |needle|];
    assert forall k :: 0 <= k < |needle| ==> part[k] == s[p + k];
    if forall k :: 0 <= k < |needle| ==> s[p + k] == needle[k] {
      assert part == needle;
    }
  }

  lemma OverlapAgrees(needle: string, x: string, y: string, p: nat)
    requires Occurs(x + (REDACTED + y), needle, p)
    ensures AgreesAt(needle, p - |x|)
  {
    var t := x + (REDACTED + y);
    OccursAt(t, needle, p);
    forall k | 0 <= k < |needle| && 0 <= p - |x| + k < |REDACTED| ensures needle[k] == REDACTED[p - |x| + k] {
      assert t[p + k] == (REDACTED + y)[p + k - |x|];
    }
  }

  /** What of the needle lies before and behind the replacement. */
  function Front(needle: string, d: int): string
    requires -|needle| < d
  {
    if d < 0 then needle[..-d] else ""
  }

  function Back(needle: string, d: int): (r: string)
    requires -|needle| < d < |REDACTED|
    ensures |Front(needle, d)| + |r| < |needle| || needle == ""
  {
    if d + |needle| > |REDACTED| then needle[|REDACTED| - d..] else ""
  }

  lemma TouchingOccurs(needle: string, d: int)
    requires -|needle| < d < |REDACTED| && AgreesAt(needle, d)
    ensures var x, y := Front(needle, d), Back(needle, d);
            Occurs(x + (REDACTED + y), needle, |x| + d)
  {
    var x, y := Front(needle, d), Back(needle, d);
    var t := x + (REDACTED + y);
    forall k | 0 <= k < |needle| ensures t[|x| + d + k] == needle[k] {
      if d + k >= 0 {
        assert t[|x| + d + k] == (REDACTED + y)[d + k];
      }
    }
    OccursAt(t, needle, |x| + d);
  }

  /** The test is exact. */
  lemma TouchesIff(needle: string)
    ensures Touches(needle) <==> !Apart(needle)
  {
    if Touches(needle) {
      var d :| -|needle| < d < |REDACTED| && AgreesAt(needle, d);
      TouchingOccurs(needle, d);
      assert !ApartIn(Front(needle, d), Back(needle, d), needle);
    }
    forall x, y | !Touches(needle) ensures ApartIn(x, y, needle) {
      forall p | Occurs(x + (REDACTED + y), needle, p) ensures p + |needle| <= |x| || |x| + |REDACTED| <= p {
        OverlapAgrees(needle, x, y, p);
      }
    }
  }

  // ----- replacing -----

  lemma SliceOfSlice(t: string, from: nat, to: nat, d: nat, n: nat)
    requires from <= to <= |t| && d + n <= to - from
    ensures t[from..to][d..d + n] == t[from + d..from + d + n]
  {
    var part, slice := t[from..to][d..d + n], t[from + d..from + d + n];
    forall k | 0 <= k < n ensures part[k] == slice[k] {
      assert part[k] == t[from..to][d + k] == t[from + d + k];
    }
    assert part == slice;
  }

  lemma OccursInFront(x: string, rest: string, needle: string, p: nat)
    requires p + |needle| <= |x|
    ensures Occurs(x + rest, needle, p) <==> Occurs(x, needle, p)
  {
    assert (x + rest)[p..p + |needle|] == x[p..p + |needle|];
  }

  lemma OccursBehind(x: string, rest: string, needle: string, p: nat)
    requires |x| <= p
    ensures Occurs(x + rest, needle, p) <==> Occurs(rest, needle, p - |x|)
  {
    if p + |needle| <= |x + rest| {
      assert (x + rest)[p..p + |needle|] == rest[p - |x|..p - |x| + |needle|];
    }
  }

  /** Text, replacement, text: the needle is absent when it is absent on both sides. */
  lemma AbsentAround(x: string, y: string, needle: string)
    requires ApartIn(x, y, needle) && Absent(x, needle) && Absent(y, needle)
    ensures Absent(x + (REDACTED + y), needle)
  {
    forall p ensures !Occurs(x + (REDACTED + y), needle, p) {
      if 0 <= p && p + |needle| <= |x| {
        OccursInFront(x, REDACTED + y, needle, p);
      } else if |x| + |REDACTED| <= p {
        OccursBehind(x, REDACTED + y, needle, p);
        OccursBehind(REDACTED, y, needle, p - |x|);
      }
    }
  }

  lemma AbsentInPart(text: string, needle: string, from: nat, to: nat)
    requires from <= to <= |text| && Absent(text, needle)
    ensures Absent(text[from..to], needle)
  {
    forall p ensures !Occurs(text[from..to], needle, p) {
      if 0 <= p && p + |needle| <= to - from {
        SliceOfSlice(text, from, to, p, |needle|);
        assert !Occurs(text, needle, from + p);
      }
    }
  }

  /** Before its first occurrence a needle is absent. */
  lemma AbsentBefore(text: string, needle: string)
    requires needle != "" && Find(text, needle).Some?
    ensures Absent(text[..Find(text, needle).value], needle)
  {
    var k := Find(text, needle).value;
    FindLeftmost(text, needle);
    forall p ensures !Occurs(text[..k], needle, p) {
      if 0 <= p && p + |needle| <= k {
        TakeDrop(text, k);
        OccursInFront(text[..k], text[k..], needle, p);
        assert !Occurs(text, needle, p);
      }
    }
  }

  lemma ReplaceAbsent(text: string, needle: string)
    requires needle != "" && Absent(text, needle)
    ensures ReplaceAll(text, needle, REDACTED) == text
  {
    ReplaceAllStep(text, needle, REDACTED);
    FindLeftmost(text, needle);
  }

  lemma ShortHasNone(text: string, needle: string)
    requires |text| < |needle|
    ensures Absent(text, needle)
  {}

  /** A text that holds the needle once. */
  lemma ReplacedOnce(x: string, needle: string, y: string)
    requires |y| < |needle| && Find(x + (needle + y), needle) == Some(|x|)
    ensures ReplaceAll(x + (needle + y), needle, REDACTED) == x + (REDACTED + y)
  {
    ThreeParts(x, needle, y);
    ReplaceAllStep(x + (needle + y), needle, REDACTED);
    ShortHasNone(y, needle);
    ReplaceAbsent(y, needle);
  }

  // ----- one needle -----

  /** At this offset an occurrence can be put together from a replacement: the needle reaches into it, agrees with it,
      and, where it begins before it, is not found too early. */
  predicate StaysAt(needle: string, d: int)
    requires -|needle| < d
  {
    d < |REDACTED| && AgreesAt(needle, d) && (d < 0 ==> Find(needle[..-d] + needle, needle) == Some(-d))
  }

  predicate CanStay(needle: string) {
    exists d :: -|needle| < d < |REDACTED| && StaysAt(needle, d)
  }

  lemma FoundFirst(x: string, needle: string, y: string)
    requires Find(x + needle, needle) == Some(|x|)
    ensures Find(x + (needle + y), needle) == Some(|x|)
  {
    Regroup(x, needle, y);
    FindMore(x + needle, needle, y);
  }

  lemma FoundBehind(needle: string, d: int)
    requires -|needle| < d && StaysAt(needle, d)
    ensures var x, y := Front(needle, d), Back(needle, d); Find(x + (needle + y), needle) == Some(|x|)
  {
    if d >= 0 {
      assert "" + needle == needle;
    }
    FoundFirst(Front(needle, d), needle, Back(needle, d));
  }

  /** A text that is not rid of the needle by replacing it. */
  lemma Stays(needle: string, d: int) returns (text: string)
    requires needle != "" && -|needle| < d && StaysAt(needle, d)
    ensures !Absent(ReplaceAll(text, needle, REDACTED), needle)
  {
    var x, y := Front(needle, d), Back(needle, d);
    text := x + (needle + y);
    FoundBehind(needle, d);
    ReplacedOnce(x, needle, y);
    TouchingOccurs(needle, d);
  }

  lemma OccursInside(text: string, from: nat, part: string, needle: string, j: nat)
    requires Occurs(text, part, from) && Occurs(part, needle, j)
    ensures Occurs(text, needle, from + j)
  {
    SliceOfSlice(text, from, from + |part|, j, |needle|);
  }

  lemma OccursJoined(text: string, a: string, b: string, from: nat)
    requires Occurs(text, a, from) && Occurs(text, b, from + |a|)
    ensures Occurs(text, a + b, from) && Occurs(a + b, b, |a|)
  {
    assert text[from..from + |a + b|] == text[from..from + |a|] + text[from + |a|..from + |a| + |b|];
    DropPrefix(a, b);
  }

  lemma NotEarlier(text: string, needle: string, n: nat, part: string, from: nat, j: nat)
    requires Find(text, needle) == Some(n) && from + j < n && Occurs(text, part, from)
    ensures !Occurs(part, needle, j)
  {
    NoneBefore(text, needle, from + j);
    if Occurs(part, needle, j) {
      OccursInside(text, from, part, needle, j);
    }
  }

  lemma FoundAt(s: string, needle: string, k: nat)
    requires Occurs(s, needle, k) && forall j: nat | j < k :: !Occurs(s, needle, j)
    ensures Find(s, needle) == Some(k)
  {
    if Find(s, needle).Some? {
      FindOccurs(s, needle);
    }
    if Find(s, needle) != Some(k) {
      NoneBefore(s, needle, k);
    }
  }

  /** A part of a text that reaches up to the first occurrence holds none before it. */
  lemma FirstInPart(text: string, needle: string, n: nat, part: string, k: nat)
    requires Find(text, needle) == Some(n) && k <= n && Occurs(text, part, n - k) && Occurs(part, needle, k)
    ensures Find(part, needle) == Some(k)
  {
    forall j: nat | j < k ensures !Occurs(part, needle, j) {
      NotEarlier(text, needle, n, part, n - k, j);
    }
    FoundAt(part, needle, k);
  }

  /** What stands before the first occurrence does not end in the beginning of an earlier one. */
  lemma NotTooEarly(text: string, needle: string, front: string, n: nat)
    requires Find(text, needle) == Some(n) && |front| <= n && Occurs(text, front, n - |front|)
    ensures Find(front + needle, needle) == Some(|front|)
  {
    FindOccurs(text, needle);
    OccursJoined(text, front, needle, n - |front|);
    FirstWhereJoined(text, needle, front, front + needle, n);
  }

  lemma FirstWhereJoined(text: string, needle: string, front: string, part: string, n: nat)
    requires Find(text, needle) == Some(n) && |front| <= n
    requires Occurs(text, part, n - |front|) && Occurs(part, needle, |front|)
    ensures Find(part, needle) == Some(|front|)
  {
    FirstInPart(text, needle, n, part, |front|);
  }

  lemma ApartWhereReplaced(text: string, needle: string, k: nat, y: string)
    requires !CanStay(needle) && Find(text, needle) == Some(k)
    ensures ApartIn(text[..k], y, needle)
  {
    forall p | Occurs(text[..k] + (REDACTED + y), needle, p) ensures p + |needle| <= |text[..k]| || |text[..k]| + |REDACTED| <= p {
      OverlapAgrees(needle, text[..k], y, p);
      if k < p + |needle| && p < k + |REDACTED| {
        CouldStay(text, needle, k, y, p);
      }
    }
  }

  /** An occurrence that touches the replacement could stay. */
  lemma CouldStay(text: string, needle: string, k: nat, y: string, p: nat)
    requires Find(text, needle) == Some(k) && k < p + |needle| && p < k + |REDACTED|
    requires Occurs(text[..k] + (REDACTED + y), needle, p) && AgreesAt(needle, p - k)
    ensures StaysAt(needle, p - k)
  {
    if p < k {
      BeginsBefore(text, k, needle, y, p);
      NotTooEarly(text, needle, needle[..k - p], k);
    }
  }

  lemma BeginsBefore(text: string, n: nat, needle: string, y: string, p: nat)
    requires p < n <= |text| && n < p + |needle| && Occurs(text[..n] + (REDACTED + y), needle, p)
    ensures Occurs(text, needle[..n - p], p)
  {
    var t := text[..n] + (REDACTED + y);
    OccursAt(t, needle, p);
    var front := needle[..n - p];
    forall k | 0 <= k < |front| ensures text[p + k] == front[k] {
      assert t[p + k] == text[p + k];
    }
    OccursAt(text, front, p);
  }

  lemma {:induction false} Removed(text: string, needle: string)
    requires needle != "" && !CanStay(needle)
    ensures Absent(ReplaceAll(text, needle, REDACTED), needle)
    decreases |text|
  {
    match Find(text, needle) {
      case None =>
        ReplaceAllNone(text, needle, REDACTED);
        FindLeftmost(text, needle);
      case Some(k) =>
        ReplaceAllSome(text, needle, REDACTED, k);
        Removed(text[k + |needle|..], needle);
        AbsentBefore(text, needle);
        GoneHere(text, k, needle, ReplaceAll(text[k + |needle|..], needle, REDACTED));
    }
  }

  lemma GoneHere(text: string, k: nat, needle: string, rest: string)
    requires needle != "" && !CanStay(needle) && Find(text, needle) == Some(k)
    requires Absent(text[..k], needle) && Absent(rest, needle)
    ensures Absent(text[..k] + (REDACTED + rest), needle)
  {
    ApartWhereReplaced(text, needle, k, rest);
    AbsentAround(text[..k], rest, needle);
  }

  /** Replacing a needle removes it from every text if and only if it cannot stay. */
  lemma RemovedIff(needle: string)
    requires needle != ""
    ensures (forall text :: Absent(ReplaceAll(text, needle, REDACTED), needle)) <==> !CanStay(needle)
  {
    if CanStay(needle) {
      var d :| -|needle| < d < |REDACTED| && StaysAt(needle, d);
      var text := Stays(needle, d);
      assert !Absent(ReplaceAll(text, needle, REDACTED), needle);
    }
    forall text | !CanStay(needle) ensures Absent(ReplaceAll(text, needle, REDACTED), needle) {
      Removed(text, needle);
    }
  }

  /** A needle without brackets can stay exactly when it is part of the word between them. */
  lemma BracketFreeStaysIff(needle: string, word: string)
    requires needle != "" && '[' !in needle && ']' !in needle && Between(word)
    ensures CanStay(needle) <==> Find(word, needle).Some?
  {
    if Find(word, needle).Some? {
      FindOccurs(word, needle);
      FromWord(needle, word, Find(word, needle).value);
    }
    if CanStay(needle) {
      var d :| -|needle| < d < |REDACTED| && StaysAt(needle, d);
      WithinWord(needle, word, d);
    }
  }

  /** The replacement is this word between brackets. */
  predicate Between(word: string) {
    |REDACTED| == |word| + 2 && forall k :: 0 <= k < |word| ==> word[k] == REDACTED[k + 1]
  }

  lemma FromWord(needle: string, word: string, p: nat)
    requires Between(word) && Occurs(word, needle, p)
    ensures CanStay(needle)
  {
    OccursAt(word, needle, p);
    assert AgreesAt(needle, p + 1);
    assert StaysAt(needle, p + 1);
  }

  lemma WithinWord(needle: string, word: string, d: int)
    requires Between(word) && '[' !in needle && ']' !in needle && -|needle| < d < |REDACTED| && AgreesAt(needle, d)
    ensures Find(word, needle).Some?
  {
    BracketsThere(needle, d);
    InWord(needle, word, d - 1);
    if Find(word, needle).None? {
      NoneBefore(word, needle, d - 1);
    }
  }

  lemma BracketsThere(needle: string, d: int)
    requires -|needle| < d < |REDACTED| && AgreesAt(needle, d)
    ensures d <= 0 ==> '[' in needle
    ensures d + |needle| >= |REDACTED| ==> ']' in needle
  {
    if d <= 0 {
      assert needle[-d] == REDACTED[0];
    }
    if d + |needle| >= |REDACTED| {
      assert needle[|REDACTED| - 1 - d] == REDACTED[|REDACTED| - 1];
    }
  }

  lemma InWord(needle: string, word: string, p: nat)
    requires Between(word) && p + |needle| <= |word| && AgreesAt(needle, p + 1)
    ensures Occurs(word, needle, p)
  {
    forall k | 0 <= k < |needle| ensures word[p + k] == needle[k] {
      assert word[p + k] == REDACTED[p + 1 + k];
    }
    OccursAt(word, needle, p);
  }

  /** So the condition is exact there too. */
  lemma BracketFreeIsExact(needle: string)
    requires needle != "" && '[' !in needle && ']' !in needle
    ensures (forall text :: Absent(ReplaceAll(text, needle, REDACTED), needle)) <==> Find(REDACTED[1..9], needle).None?
  {
    BracketFreeStaysIff(needle, REDACTED[1..9]);
    RemovedIff(needle);
  }

  lemma OneBracket(i: nat)
    requires 1 <= i < |REDACTED|
    ensures REDACTED[i] != '['
  {
    assert REDACTED == "[" + "redacted]" && REDACTED[i] == "redacted]"[i - 1];
  }

  /** A needle may touch a replacement and yet always be removed. */
  lemma TouchingCanBeRemoved(needle: string)
    requires needle == "[a["
    ensures Touches(needle) && !CanStay(needle)
  {
    assert AgreesAt(needle, -2);
    forall d | -|needle| < d < |REDACTED| ensures !StaysAt(needle, d) {
      if d == -2 {
        assert needle[..2] + needle == "[a[a[";
      } else if d >= 1 {
        OneBracket(d);
        assert needle[0] == '[';
      } else {
        assert needle[1] != REDACTED[d + 1];
      }
    }
  }

  /** And it may hold brackets without touching one. */
  lemma BracketsCanBeApart(needle: string)
    requires needle == "a[b]cd"
    ensures !Touches(needle)
  {
    forall d | -|needle| < d < |REDACTED| ensures !AgreesAt(needle, d) {
      if d == -1 {
        assert needle[2] != REDACTED[1];
      } else if 0 <= d < 9 {
        OneBracket(d + 1);
        assert needle[1] == '[';
      } else {
        var k := if d < 0 then -d else 0;
        assert needle[k] != REDACTED[d + k];
      }
    }
  }

  // ----- a registry -----

  /** Replacing another needle never brings one back that cannot touch a replacement. */
  lemma {:induction false} ReplacingKeepsAbsent(text: string, other: string, needle: string)
    requires !Touches(needle) && Absent(text, needle)
    ensures Absent(ReplaceAll(text, other, REDACTED), needle)
    decreases |text|
  {
    if other != "" {
      match Find(text, other) {
        case None =>
          ReplaceAllNone(text, other, REDACTED);
        case Some(k) =>
          ReplaceAllSome(text, other, REDACTED, k);
          AbsentAtEnds(text, needle, k, k + |other|);
          ReplacingKeepsAbsent(text[k + |other|..], other, needle);
          ApartAnywhere(needle, text[..k], ReplaceAll(text[k + |other|..], other, REDACTED));
          AbsentAround(text[..k], ReplaceAll(text[k + |other|..], other, REDACTED), needle);
      }
    }
  }

  lemma ApartAnywhere(needle: string, x: string, y: string)
    requires !Touches(needle)
    ensures ApartIn(x, y, needle)
  {
    TouchesIff(needle);
  }

  lemma AbsentAtEnds(text: string, needle: string, from: nat, to: nat)
    requires from <= to <= |text| && Absent(text, needle)
    ensures Absent(text[..from], needle) && Absent(text[to..], needle)
  {
    AbsentInPart(text, needle, 0, from);
    AbsentInPart(text, needle, to, |text|);
    assert text[0..from] == text[..from] && text[to..|text|] == text[to..];
  }

  lemma StayingTouches(needle: string)
    requires !Touches(needle)
    ensures needle != "" && !CanStay(needle)
  {
    assert needle == "" ==> AgreesAt(needle, 1);
  }

  /** A needle that cannot touch a replacement is removed, whatever the others are and whatever order they stand in. */
  lemma {:induction false} NoneIsLeft(text: string, needles: seq<string>, needle: string)
    requires needle in needles && !Touches(needle)
    ensures Absent(RedactAll(text, needles), needle)
    decreases |needles|
  {
    var front, last := needles[..|needles| - 1], needles[|needles| - 1];
    if needle == last {
      StayingTouches(last);
      Removed(RedactAll(text, front), last);
    } else {
      assert needles == front + [last];
      NoneIsLeft(text, front, needle);
      ReplacingKeepsAbsent(RedactAll(text, front), last, needle);
    }
  }

  lemma {:induction false} NothingToRedact(text: string, needles: seq<string>)
    requires forall n <- needles :: n != "" && Absent(text, n)
    ensures RedactAll(text, needles) == text
  {
    if needles != [] {
      var front, last := needles[..|needles| - 1], needles[|needles| - 1];
      assert last in needles;
      forall n <- front ensures n != "" && Absent(text, n) {
        assert n in needles;
      }
      NothingToRedact(text, front);
      ReplaceAbsent(text, last);
    }
  }

  lemma {:induction false} NeedlesHold(values: seq<string>, encode: string -> string, v: string)
    requires v in values
    ensures v in Needles(values, encode) && encode(v) in Needles(values, encode)
  {
    var front, last := values[..|values| - 1], values[|values| - 1];
    if v != last {
      assert values == front + [last];
      NeedlesHold(front, encode, v);
    }
  }

  lemma {:induction false} NeedlesComeFrom(values: seq<string>, encode: string -> string, n: string)
    requires n in Needles(values, encode)
    ensures exists v <- values :: n == v || n == encode(v)
  {
    var front, last := values[..|values| - 1], values[|values| - 1];
    assert last in values;
    if n in Needles(front, encode) {
      NeedlesComeFrom(front, encode, n);
      var v :| v in front && (n == v || n == encode(v));
      assert v in values;
    }
  }

  /** After redaction no secret that cannot touch a replacement is in the text, nor such an encoded form, whatever the
      other secrets are; when none can touch one, redacting again changes nothing. */
  lemma RedactionIsComplete(values: seq<string>, encode: string -> string, text: string)
    ensures var out := RedactAll(text, Needles(values, encode));
            && (forall v <- values :: !Touches(v) ==> Absent(out, v))
            && (forall v <- values :: !Touches(encode(v)) ==> Absent(out, encode(v)))
            && ((forall v <- values :: !Touches(v) && !Touches(encode(v))) ==> RedactAll(out, Needles(values, encode)) == out)
  {
    var needles := Needles(values, encode);
    var out := RedactAll(text, needles);
    forall n <- needles | !Touches(n) ensures n != "" && Absent(out, n) {
      StayingTouches(n);
      NoneIsLeft(text, needles, n);
    }
    forall v <- values ensures v in needles && encode(v) in needles {
      NeedlesHold(values, encode, v);
    }
    if forall v <- values :: !Touches(v) && !Touches(encode(v)) {
      forall n <- needles ensures !Touches(n) {
        NeedlesComeFrom(values, encode, n);
      }
      NothingToRedact(out, needles);
    }
  }

  // ----- a secret that can touch a replacement is safe in no company -----

  /** What is used of `encodeURIComponent`: it shortens nothing and leaves lower-case letters alone. */
  ghost predicate Encodes(encode: string -> string) {
    && (forall v :: |v| <= |encode(v)|)
    && (forall c: char, n: nat :: 'a' <= c <= 'z' ==> encode(Run(c, n)) == Run(c, n))
  }

  function Run(c: char, n: nat): (r: string)
    ensures |r| == n && forall k :: 0 <= k < n ==> r[k] == c
  {
    seq(n, _ => c)
  }

  /** A letter that is not among these. */
  lemma {:induction false} FreshLetter(bad: seq<char>) returns (c: char)
    requires |bad| < 26
    ensures c !in bad && 'a' <= c <= 'a' + |bad| as char
    decreases |bad|
  {
    c := 'a' + |bad| as char;
    if c in bad {
      var i :| 0 <= i < |bad| && bad[i] == c;
      var others := bad[..i] + bad[i + 1..];
      var d := FreshLetter(others);
      assert bad == bad[..i] + ([c] + bad[i + 1..]);
      c := d;
    }
  }

  /** A needle that neither begins nor ends with a letter, nor has it in its middle, is not in a text with a long run
      of it. */
  lemma RunHidesNone(x: string, c: char, n: nat, y: string, needle: string)
    requires |x| + |y| < n <= |needle|
    requires c != needle[0] && c != needle[|needle| - 1] && c != needle[|needle| / 2]
    ensures Absent(x + (Run(c, n) + y), needle)
  {
    var t := x + (Run(c, n) + y);
    forall p ensures !Occurs(t, needle, p) {
      if 0 <= p <= |t| - |needle| {
        OccursAt(t, needle, p);
        RunAt(x, c, n, y, p);
        RunAt(x, c, n, y, p + |needle| - 1);
        RunAt(x, c, n, y, p + |needle| / 2);
      }
    }
  }

  lemma RunAt(x: string, c: char, n: nat, y: string, k: nat)
    ensures |x| <= k < |x| + n ==> (x + (Run(c, n) + y))[k] == c
  {}

  /** The run itself is found where it stands. */
  lemma RunIsFound(x: string, c: char, n: nat, y: string)
    requires |x| < n && (x != "" ==> x[|x| - 1] != c)
    ensures Find(x + (Run(c, n) + y), Run(c, n)) == Some(|x|)
  {
    var t, run := x + (Run(c, n) + y), Run(c, n);
    forall j: nat | j < |x| ensures !Occurs(t, run, j) {
      OccursAt(t, run, j);
      assert t[j + (|x| - 1 - j)] == x[|x| - 1];
    }
    ThreeParts(x, run, y);
    forall k | 0 <= k < n ensures t[|x| + k] == run[k] {
      RunAt(x, c, n, y, |x| + k);
    }
    OccursAt(t, run, |x|);
    FoundAt(t, run, |x|);
  }

  /** A text without the secret, and a secret of the same length whose replacement puts the first one together. */
  lemma Company(v: string, e: string, d: int) returns (c: char, text: string)
    requires |v| >= 1 && |e| >= |v| && -|v| < d < |REDACTED| && AgreesAt(v, d)
    ensures 'a' <= c <= 'z' && v != Run(c, |v|)
    ensures Absent(text, v) && Absent(text, e) && !Absent(ReplaceAll(text, Run(c, |v|), REDACTED), v)
  {
    var x, y, n := Front(v, d), Back(v, d), |v|;
    c := FreshLetter([v[0], v[n - 1], v[n / 2], e[0], e[|e| - 1], e[|e| / 2]] + x[if x == "" then 0 else |x| - 1..]);
    text := x + (Run(c, n) + y);
    RunHidesNone(x, c, n, y, v);
    RunHidesNone(x, c, n, y, e);
    RunIsFound(x, c, n, y);
    ReplacedOnce(x, Run(c, n), y);
    TouchingOccurs(v, d);
  }

  lemma NeedlesNext(values: seq<string>, encode: string -> string, v: string)
    ensures Needles(values + [v], encode) == Needles(values, encode) + if encode(v) != v then [v, encode(v)] else [v]
  {
    assert (values + [v])[..|values|] == values;
  }

  lemma RedactNext(text: string, needles: seq<string>, n: string)
    ensures RedactAll(text, needles + [n]) == ReplaceAll(RedactAll(text, needles), n, REDACTED)
  {
    assert (needles + [n])[..|needles|] == needles;
  }

  lemma PairIsRegistry(v: string, w: string)
    requires |v| == |w| >= MIN_SECRET_LENGTH && v != w
    ensures IsRegistry([v, w])
  {}

  lemma NothingOfOne(text: string, encode: string -> string, v: string)
    requires v != "" && encode(v) != "" && Absent(text, v) && Absent(text, encode(v))
    ensures RedactAll(text, Needles([v], encode)) == text
  {
    forall n <- Needles([v], encode) ensures n != "" && Absent(text, n) {
      NeedlesComeFrom([v], encode, n);
    }
    NothingToRedact(text, Needles([v], encode));
  }

  /** Where the first secret is not, only the second counts. */
  lemma SecondOnly(text: string, encode: string -> string, v: string, w: string)
    requires v != "" && encode(v) != "" && Absent(text, v) && Absent(text, encode(v)) && encode(w) == w
    ensures RedactAll(text, Needles([v, w], encode)) == ReplaceAll(text, w, REDACTED)
  {
    assert [v] + [w] == [v, w];
    NeedlesNext([v], encode, w);
    NothingOfOne(text, encode, v);
    RedactNext(text, Needles([v], encode), w);
  }

  lemma EncodesRun(encode: string -> string, c: char, n: nat, v: string)
    requires Encodes(encode) && 'a' <= c <= 'z'
    ensures encode(Run(c, n)) == Run(c, n) && |v| <= |encode(v)|
  {}

  /** A registry in whose company the secret stays. */
  lemma StaysInCompany(v: string, encode: string -> string) returns (values: seq<string>, text: string)
    requires |v| >= MIN_SECRET_LENGTH && Encodes(encode) && Touches(v)
    ensures IsRegistry(values) && v in values && !Absent(RedactAll(text, Needles(values, encode)), v)
  {
    EncodesRun(encode, 'a', 0, v);
    var d :| -|v| < d < |REDACTED| && AgreesAt(v, d);
    var c, t := Company(v, encode(v), d);
    EncodesRun(encode, c, |v|, v);
    PairIsRegistry(v, Run(c, |v|));
    SecondOnly(t, encode, v, Run(c, |v|));
    values, text := [v, Run(c, |v|)], t;
  }

  /** A secret is removed from every text by every registry that holds it if and only if it cannot touch a replacement. */
  lemma SecretIsSafeIff(v: string, encode: string -> string)
    requires |v| >= MIN_SECRET_LENGTH && Encodes(encode)
    ensures (forall values, text :: IsRegistry(values) && v in values ==> Absent(RedactAll(text, Needles(values, encode)), v))
       <==> !Touches(v)
  {
    if Touches(v) {
      var values, text := StaysInCompany(v, encode);
      assert IsRegistry(values) && v in values && !Absent(RedactAll(text, Needles(values, encode)), v);
    }
    forall values, text | !Touches(v) && IsRegistry(values) && v in values ensures Absent(RedactAll(text, Needles(values, encode)), v) {
      NeedlesHold(values, encode, v);
      NoneIsLeft(text, Needles(values, encode), v);
    }
  }

  /** Alone, a secret that can stay does, if its encoded form is the secret itself or has a character of its own. */
  lemma SecretStays(v: string, encode: string -> string, d: int, own: char) returns (text: string)
    requires v != "" && -|v| < d && StaysAt(v, d)
    requires encode(v) == v || (own in encode(v) && own !in v && own !in REDACTED)
    ensures !Absent(RedactAll(text, Needles([v], encode)), v)
  {
    var x, y := Front(v, d), Back(v, d);
    text := x + (v + y);
    FoundBehind(v, d);
    ReplacedOnce(x, v, y);
    TouchingOccurs(v, d);
    OneSecret(text, encode, v);
    if encode(v) != v {
      assert own !in x + (REDACTED + y);
      ForeignAbsent(x + (REDACTED + y), encode(v), own);
      ReplaceAbsent(x + (REDACTED + y), encode(v));
    }
  }

  lemma OneSecret(text: string, encode: string -> string, v: string)
    ensures var once := ReplaceAll(text, v, REDACTED);
            RedactAll(text, Needles([v], encode)) == if encode(v) == v then once else ReplaceAll(once, encode(v), REDACTED)
  {
    NeedlesNext([], encode, v);
    RedactNext(text, [], v);
    RedactNext(text, [v], encode(v));
    assert [] + [v] == [v] && [v] + [encode(v)] == [v, encode(v)] && [] + [v, encode(v)] == [v, encode(v)];
  }

  lemma ForeignAbsent(text: string, needle: string, c: char)
    requires c in needle && c !in text
    ensures Absent(text, needle)
  {
    var k :| 0 <= k < |needle| && needle[k] == c;
    forall p ensures !Occurs(text, needle, p) {
      if 0 <= p <= |text| - |needle| {
        OccursAt(text, needle, p);
        assert text[p + k] in text;
      }
    }
  }

  /** Such a secret, of six characters. */
  lemma BracketedSecretStays(encode: string -> string) returns (text: string)
    requires encode("]abcde") == "%5Dabcde"
    ensures !Absent(RedactAll(text, Needles(["]abcde"], encode)), "]abcde")
  {
    var v := "]abcde";
    assert REDACTED[9] == ']' && v[0] == ']' && encode(v)[0] == '%';
    assert AgreesAt(v, 9);
    text := SecretStays(v, encode, 9, '%');
  }
}
