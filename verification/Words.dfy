/** The words of a line: what comparing lines up to white space comes to (packages/apply/src/match.ts). */
module Words {
  import opened Text
  import opened Match

  /** The first offset from `i` on at which white space stands, or the length of the line. */
  function WordEnd(s: string, i: nat): (k: nat)
    requires i <= |s|
    ensures i <= k <= |s| && (k < |s| ==> IsSpace(s[k])) && forall j :: i <= j < k ==> !IsSpace(s[j])
    decreases |s| - i
  {
    if i == |s| || IsSpace(s[i]) then i else WordEnd(s, i + 1)
  }

  /** The maximal runs of characters that are not white space, in order. */
  function WordsOf(s: string): seq<string>
    decreases |s|
  {
    if s == "" then []
    else if IsSpace(s[0]) then WordsOf(s[1..])
    else [s[..WordEnd(s, 0)]] + WordsOf(s[WordEnd(s, 0)..])
  }

  /** The lines have the same words. */
  predicate SameWords(a: string, b: string) {
    WordsOf(a) == WordsOf(b)
  }

  predicate IsWord(w: string) {
    w != "" && forall j :: 0 <= j < |w| ==> !IsSpace(w[j])
  }

  lemma {:induction false} WordsAreWords(s: string)
    ensures forall k :: 0 <= k < |WordsOf(s)| ==> IsWord(WordsOf(s)[k])
    decreases |s|
  {
    if s != "" {
      if IsSpace(s[0]) {
        WordsAreWords(s[1..]);
      } else {
        WordsAreWords(s[WordEnd(s, 0)..]);
      }
    }
  }

  lemma {:induction false} WordsTrimStart(s: string)
    ensures WordsOf(TrimStart(s)) == WordsOf(s)
  {
    if s != "" && IsSpace(s[0]) {
      WordsTrimStart(s[1..]);
    }
  }

  lemma {:induction false} NoWordsIff(s: string)
    ensures WordsOf(s) == [] <==> IsBlank(s)
    decreases |s|
  {
    if s != "" && IsSpace(s[0]) {
      NoWordsIff(s[1..]);
    }
  }

  // ----- collapsing -----

  lemma {:induction false} TrimStartShorter(s: string)
    ensures TrimStart(s) != "" ==> !IsSpace(TrimStart(s)[0])
  {
    if s != "" && IsSpace(s[0]) {
      TrimStartShorter(s[1..]);
    }
  }

  lemma {:induction false} CollapseWord(s: string, k: nat)
    requires k <= |s| && forall j :: 0 <= j < k ==> !IsSpace(s[j])
    ensures Collapse(s) == s[..k] + Collapse(s[k..])
  {
    if k > 0 {
      CollapseWord(s[1..], k - 1);
      assert s[1..][k - 1..] == s[k..];
      assert s[..k] == [s[0]] + s[1..][..k - 1];
    } else {
      assert s[0..] == s;
    }
  }

  /** What is left of the white space at the end. */
  function EndBlank(s: string): string {
    if s != "" && IsSpace(s[|s| - 1]) then " " else ""
  }

  lemma EndBlankLater(s: string, k: nat)
    requires k < |s|
    ensures EndBlank(s[k..]) == EndBlank(s)
  {}

  lemma {:induction false} TrimStartEnd(s: string)
    requires !IsBlank(s)
    ensures TrimStart(s) != "" && EndBlank(TrimStart(s)) == EndBlank(s)
  {
    if IsSpace(s[0]) {
      TrimStartEnd(s[1..]);
      EndBlankLater(s, 1);
    }
  }

  /** A line that begins with a word collapses to its words, put together with blanks, and perhaps a blank. */
  lemma {:induction false} CollapseIs(s: string)
    requires s == "" || !IsSpace(s[0])
    ensures Collapse(s) == Join(WordsOf(s), " ") + EndBlank(s)
    decreases |s|
  {
    if s != "" {
      var k := WordEnd(s, 0);
      CollapseWord(s, k);
      var rest := s[k..];
      if rest == "" {
        assert s[..k] == s;
      } else {
        CollapseRest(s, k, rest);
      }
    }
  }

  lemma {:induction false} CollapseRest(s: string, k: nat, rest: string)
    requires s != "" && !IsSpace(s[0]) && k == WordEnd(s, 0) < |s| && rest == s[k..] && Collapse(s) == s[..k] + Collapse(rest)
    ensures Collapse(s) == Join(WordsOf(s), " ") + EndBlank(s)
    decreases |s|, 0
  {
    var next := TrimStart(rest[1..]);
    EndBlankLater(s, k);
    WordsTrimStart(rest[1..]);
    TrimStartShorter(rest[1..]);
    NoWordsIff(rest[1..]);
    if IsBlank(rest[1..]) {
      BlankCollapses(rest[1..]);
      BlankEnds(rest);
      assert Join([s[..k]], " ") == s[..k];
    } else {
      TrimStartEnd(rest[1..]);
      EndBlankLater(rest, 1);
      CollapseIs(next);
      JoinCons(s[..k], WordsOf(next), " ");
      WordThen(s[..k], Join(WordsOf(next), " "), EndBlank(s));
    }
  }

  lemma WordThen(w: string, words: string, end: string)
    ensures w + (" " + (words + end)) == (w + (" " + words)) + end
  {}

  lemma {:induction false} BlankCollapses(s: string)
    requires IsBlank(s)
    ensures TrimStart(s) == ""
  {
    if s != "" {
      BlankCollapses(s[1..]);
    }
  }

  lemma BlankEnds(rest: string)
    requires rest != "" && IsSpace(rest[0]) && IsBlank(rest[1..])
    ensures EndBlank(rest) == " "
  {
    IsBlankIff(rest);
  }

  // ----- normalizing -----

  lemma {:induction false} JoinedEnds(words: seq<string>)
    requires words != [] && forall k :: 0 <= k < |words| ==> IsWord(words[k])
    ensures var s := Join(words, " "); s != "" && !IsSpace(s[0]) && !IsSpace(s[|s| - 1])
  {
    if |words| > 1 {
      JoinedEnds(words[1..]);
    }
  }

  lemma TrimNothing(s: string)
    requires s == "" || (!IsSpace(s[0]) && !IsSpace(s[|s| - 1]))
    ensures Trim(s) == s && Trim(s + " ") == s
  {
    assert (s + " ")[..|s|] == s;
  }

  /** Normalizing puts the words of a line together with single blanks. */
  lemma NormalizedIs(s: string)
    ensures NormalizeWhitespace(s) == Join(WordsOf(s), " ")
  {
    WordsAreWords(s);
    if s != "" && IsSpace(s[0]) {
      NormalizedBehind(s);
    } else {
      CollapseIs(s);
      TrimmedJoin(WordsOf(s), EndBlank(s));
    }
  }

  lemma TrimmedJoin(words: seq<string>, end: string)
    requires (forall k :: 0 <= k < |words| ==> IsWord(words[k])) && (end == "" || end == " ")
    ensures Trim(Join(words, " ") + end) == Join(words, " ")
    ensures Trim(" " + (Join(words, " ") + end)) == Join(words, " ")
  {
    var s := Join(words, " ");
    if words != [] {
      JoinedEnds(words);
    }
    TrimNothing(s);
    assert s + "" == s;
    LeadingBlankTrimmed(s + end);
  }

  /** A blank in front does not matter. */
  lemma {:induction false} LeadingBlankTrimmed(s: string)
    ensures Trim(" " + s) == Trim(s)
    decreases |s|
  {
    var t := " " + s;
    if s == "" {
      assert t == " " && t[..0] == "";
    } else if IsSpace(s[|s| - 1]) {
      assert t[..|t| - 1] == " " + s[..|s| - 1];
      LeadingBlankTrimmed(s[..|s| - 1]);
      assert TrimEnd(t) == TrimEnd(" " + s[..|s| - 1]);
    } else {
      assert TrimEnd(t) == t && TrimEnd(s) == s && t[1..] == s;
    }
  }

  lemma NormalizedBehind(s: string)
    requires s != "" && IsSpace(s[0])
    ensures NormalizeWhitespace(s) == Join(WordsOf(s), " ")
  {
    var next := TrimStart(s[1..]);
    TrimStartShorter(s[1..]);
    WordsTrimStart(s[1..]);
    CollapseIs(next);
    WordsAreWords(next);
    TrimmedJoin(WordsOf(next), EndBlank(next));
  }

  lemma {:induction false} JoinedDiffer(a: seq<string>, b: seq<string>)
    requires (forall k :: 0 <= k < |a| ==> IsWord(a[k])) && (forall k :: 0 <= k < |b| ==> IsWord(b[k]))
    requires Join(a, " ") == Join(b, " ")
    ensures a == b
  {
    if a == [] {
      if b != [] { JoinedEnds(b); }
    } else {
      JoinedEnds(a);
      WordsPlain(a);
      WordsPlain(b);
      SplitJoin(a, ' ');
      SplitJoin(b, ' ');
    }
  }

  lemma WordsPlain(words: seq<string>)
    requires forall k :: 0 <= k < |words| ==> IsWord(words[k])
    ensures forall p <- words :: ' ' !in p
  {
    forall p <- words ensures ' ' !in p {
      var k :| 0 <= k < |words| && words[k] == p;
      assert IsWord(words[k]) && IsSpace(' ');
    }
  }

  /** Two lines are equal after normalizing exactly when they have the same words. */
  lemma SameNormalizedIff(a: string, b: string)
    ensures NormalizeWhitespace(a) == NormalizeWhitespace(b) <==> SameWords(a, b)
  {
    NormalizedIs(a);
    NormalizedIs(b);
    WordsAreWords(a);
    WordsAreWords(b);
    if NormalizeWhitespace(a) == NormalizeWhitespace(b) {
      JoinedDiffer(WordsOf(a), WordsOf(b));
    }
  }

  lemma NormalizedBlankIff(s: string)
    ensures NormalizeWhitespace(s) == "" <==> WordsOf(s) == []
  {
    NormalizedIs(s);
    WordsAreWords(s);
    if WordsOf(s) != [] {
      JoinedEnds(WordsOf(s));
    }
  }
}
