/** Keeping configured secrets out of every text that is emitted (packages/mcp/src/redact.ts). */
module Redact {
  import opened Text

  const REDACTED := "[redacted]"
  const MIN_SECRET_LENGTH := 6

  // ----- replacing -----

  /** `haystack.split(needle)` for a non-empty needle. */
  function SplitOn(haystack: string, needle: string): (r: seq<string>)
    requires needle != ""
    ensures |r| >= 1
    decreases |haystack|
  {
    match Find(haystack, needle)
    case None => [haystack]
    case Some(k) => [haystack[..k]] + SplitOn(haystack[k + |needle|..], needle)
  }

  function ReplaceAll(haystack: string, needle: string, replacement: string): string {
    if needle == "" then haystack else Join(SplitOn(haystack, needle), replacement)
  }

  /** The same, written out at the first occurrence. */
  lemma ReplaceAllStep(haystack: string, needle: string, replacement: string)
    requires needle != ""
    ensures match Find(haystack, needle)
            case None => ReplaceAll(haystack, needle, replacement) == haystack
            case Some(k) => ReplacedAt(haystack, needle, replacement, k)
  {
    match Find(haystack, needle) {
      case None => ReplaceAllNone(haystack, needle, replacement);
      case Some(k) => ReplaceAllSome(haystack, needle, replacement, k);
    }
  }

  lemma ReplaceAllNone(haystack: string, needle: string, replacement: string)
    requires needle != "" && Find(haystack, needle).None?
    ensures ReplaceAll(haystack, needle, replacement) == haystack
  {
    assert SplitOn(haystack, needle) == [haystack];
  }

  lemma ReplaceAllSome(haystack: string, needle: string, replacement: string, k: nat)
    requires needle != "" && Find(haystack, needle) == Some(k)
    ensures ReplacedAt(haystack, needle, replacement, k)
  {
    SplitAtFirst(haystack, needle, k);
    JoinedAtFirst(haystack, needle, replacement, k);
  }

  predicate ReplacedAt(haystack: string, needle: string, replacement: string, k: nat)
    requires k + |needle| <= |haystack|
  {
    ReplaceAll(haystack, needle, replacement) == haystack[..k] + (replacement + ReplaceAll(haystack[k + |needle|..], needle, replacement))
  }

  lemma JoinedAtFirst(haystack: string, needle: string, replacement: string, k: nat)
    requires needle != "" && k + |needle| <= |haystack|
    requires SplitOn(haystack, needle) == [haystack[..k]] + SplitOn(haystack[k + |needle|..], needle)
    ensures ReplacedAt(haystack, needle, replacement, k)
  {
    JoinCons(haystack[..k], SplitOn(haystack[k + |needle|..], needle), replacement);
  }

  lemma SplitAtFirst(haystack: string, needle: string, k: nat)
    requires needle != "" && Find(haystack, needle) == Some(k)
    ensures SplitOn(haystack, needle) == [haystack[..k]] + SplitOn(haystack[k + |needle|..], needle)
  {}

  // ----- the registry -----

  /** A value put among others that are sorted longest first, behind those of its own length. */
  function InsertByLength(sorted: seq<string>, value: string): (r: seq<string>)
    ensures |r| == |sorted| + 1
    ensures forall v :: v in r <==> v in sorted || v == value
  {
    if sorted == [] then [value]
    else if |sorted[0]| < |value| then [value] + sorted
    else
      assert sorted == [sorted[0]] + sorted[1..];
      [sorted[0]] + InsertByLength(sorted[1..], value)
  }

  ghost predicate LongestFirst(values: seq<string>) {
    forall i, j :: 0 <= i < j < |values| ==> |values[i]| >= |values[j]|
  }

  /** What a registry holds. */
  ghost predicate IsRegistry(values: seq<string>) {
    LongestFirst(values) && Distinct(values) && forall v <- values :: |v| >= MIN_SECRET_LENGTH
  }

  lemma {:induction false} InsertKeepsOrder(sorted: seq<string>, value: string)
    requires LongestFirst(sorted)
    ensures LongestFirst(InsertByLength(sorted, value))
  {
    if sorted != [] && |sorted[0]| >= |value| {
      var rest := sorted[1..];
      assert LongestFirst(rest);
      InsertKeepsOrder(rest, value);
      var r := InsertByLength(rest, value);
      forall j | 0 <= j < |r| ensures |sorted[0]| >= |r[j]| {
        assert r[j] in r;
        assert r[j] in rest ==> exists k :: 0 <= k < |rest| && rest[k] == r[j];
      }
    }
  }

  lemma {:induction false} InsertKeepsDistinct(sorted: seq<string>, value: string)
    requires Distinct(sorted) && value !in sorted
    ensures Distinct(InsertByLength(sorted, value))
  {
    if sorted != [] && |sorted[0]| >= |value| {
      var rest := sorted[1..];
      assert Distinct(rest);
      InsertKeepsDistinct(rest, value);
      var r := InsertByLength(rest, value);
      forall j | 0 <= j < |r| ensures sorted[0] != r[j] {
        assert r[j] in r;
        assert r[j] in rest ==> exists k :: 0 <= k < |rest| && rest[k] == r[j];
      }
    }
  }

  /** The values that a connection was given in its blocks. */
  ghost predicate Configured(sources: seq<Option<seq<string>>>, value: string) {
    exists i :: 0 <= i < |sources| && sources[i].Some? && value in sources[i].value
  }

  /** The texts that are replaced for a list of secrets, in order: each value and, when it differs, its encoded form. */
  function Needles(values: seq<string>, encode: string -> string): seq<string> {
    if values == [] then []
    else
      var n := |values| - 1;
      Needles(values[..n], encode) + if encode(values[n]) != values[n] then [values[n], encode(values[n])] else [values[n]]
  }

  /** Replacing needle after needle. */
  function RedactAll(text: string, needles: seq<string>): string {
    if needles == [] then text
    else ReplaceAll(RedactAll(text, needles[..|needles| - 1]), needles[|needles| - 1], REDACTED)
  }

  class SecretRegistry {
    const values: seq<string>
    /** `encodeURIComponent` */
    const encode: string -> string

    constructor (sources: seq<Option<seq<string>>>, encode: string -> string)
      ensures this.encode == encode
      ensures forall v :: v in values <==> Configured(sources, v) && |v| >= MIN_SECRET_LENGTH
      ensures LongestFirst(values)
      ensures Distinct(values)
    {
      var collected: seq<string> := [];
      for i := 0 to |sources|
        invariant IsRegistry(collected) && Holds(collected, sources[..i])
      {
        var before := collected;
        collected := Collect(before, if sources[i].None? then [] else sources[i].value);
        HoldsNext(sources, i, before, collected);
      }
      assert sources[..|sources|] == sources;
      this.values := collected;
      this.encode := encode;
    }

    method Redact(text: string) returns (out: string)
      ensures out == RedactAll(text, Needles(values, encode))
    {
      out := text;
      for i := 0 to |values|
        invariant out == RedactAll(text, Needles(values[..i], encode))
      {
        assert values[..i + 1][..i] == values[..i];
        ghost var done := Needles(values[..i], encode);
        out := ReplaceAll(out, values[i], REDACTED);
        assert (done + [values[i]])[..|done|] == done;
        var encoded := encode(values[i]);
        if encoded != values[i] {
          out := ReplaceAll(out, encoded, REDACTED);
          assert (done + [values[i], encoded])[..|done| + 1] == done + [values[i]];
        }
      }
      assert values[..|values|] == values;
    }
  }

  /** A value that is long enough joins those collected, once. */
  method Add(collected: seq<string>, value: string) returns (r: seq<string>)
    requires IsRegistry(collected)
    ensures IsRegistry(r)
    ensures forall v :: v in r <==> v in collected || (v == value && |v| >= MIN_SECRET_LENGTH)
  {
    if |value| < MIN_SECRET_LENGTH || value in collected {
      return collected;
    }
    InsertKeepsOrder(collected, value);
    InsertKeepsDistinct(collected, value);
    r := InsertByLength(collected, value);
  }

  /** The values of one block, put among those of the blocks before it. */
  method Collect(before: seq<string>, block: seq<string>) returns (collected: seq<string>)
    requires IsRegistry(before)
    ensures IsRegistry(collected)
    ensures forall v :: v in collected <==> v in before || (v in block && |v| >= MIN_SECRET_LENGTH)
  {
    collected := before;
    for j := 0 to |block|
      invariant IsRegistry(collected)
      invariant forall v :: v in collected <==> v in before || (v in block[..j] && |v| >= MIN_SECRET_LENGTH)
    {
      assert block[..j + 1] == block[..j] + [block[j]];
      collected := Add(collected, block[j]);
    }
    assert block[..|block|] == block;
  }

  /** The values long enough that the first blocks configure. */
  ghost predicate Holds(collected: seq<string>, sources: seq<Option<seq<string>>>) {
    forall v :: v in collected <==> Configured(sources, v) && |v| >= MIN_SECRET_LENGTH
  }

  lemma HoldsNext(sources: seq<Option<seq<string>>>, i: nat, before: seq<string>, after: seq<string>)
    requires i < |sources| && Holds(before, sources[..i])
    requires var block := if sources[i].None? then [] else sources[i].value;
             forall v :: v in after <==> v in before || (v in block && |v| >= MIN_SECRET_LENGTH)
    ensures Holds(after, sources[..i + 1])
  {
    ConfiguredNext(sources, i);
  }

  lemma ConfiguredNext(sources: seq<Option<seq<string>>>, i: nat)
    requires i < |sources|
    ensures forall v :: Configured(sources[..i + 1], v) <==> Configured(sources[..i], v) || (sources[i].Some? && v in sources[i].value)
  {
    forall v ensures Configured(sources[..i + 1], v) <==> Configured(sources[..i], v) || (sources[i].Some? && v in sources[i].value) {
      if Configured(sources[..i], v) {
        var k :| 0 <= k < |sources[..i]| && sources[..i][k].Some? && v in sources[..i][k].value;
        assert sources[..i + 1][k] == sources[..i][k];
      }
      if sources[i].Some? && v in sources[i].value {
        assert sources[..i + 1][i] == sources[i];
      }
      if Configured(sources[..i + 1], v) {
        var k :| 0 <= k < |sources[..i + 1]| && sources[..i + 1][k].Some? && v in sources[..i + 1][k].value;
        assert k < i ==> sources[..i][k] == sources[..i + 1][k];
      }
    }
  }
}
