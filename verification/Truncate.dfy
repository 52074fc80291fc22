/** Truncation of tool results and the store behind continuation tokens (packages/core/src/truncate.ts).
    Text has one byte per character. */
module Truncate {
  import opened Text

  datatype Bias = Head | Tail | Both

  const DEFAULT_MARKER := "[... elided by the engine: output exceeded the result budget ...]"

  /** `marker` is the one given, or the default. */
  datatype Options = Options(maxBytes: int, bias: Bias, marker: string)

  datatype TruncateResult = TruncateResult(text: string, truncated: bool, originalBytes: nat, returnedBytes: nat)

  // ----- one text -----

  /** The line put where text was removed. */
  function MarkerLine(options: Options): string {
    "\n" + options.marker + "\n"
  }

  /** The offset of the last newline, or -1. */
  function LastBreak(s: string): (k: int)
    ensures -1 <= k < |s| && (k >= 0 ==> s[k] == '\n')
  {
    if s == "" then -1 else if s[|s| - 1] == '\n' then |s| - 1 else LastBreak(s[..|s| - 1])
  }

  lemma {:induction false} LastBreakLast(s: string, j: nat)
    requires LastBreak(s) < j < |s|
    ensures s[j] != '\n'
  {
    if j < |s| - 1 {
      LastBreakLast(s[..|s| - 1], j);
    }
  }

  function TakeHead(text: string, budget: int): string {
    if budget <= 0 then ""
    else
      var slice := if budget < |text| then text[..budget] else text;
      var lastBreak := LastBreak(slice);
      if lastBreak > 0 then slice[..lastBreak] else slice
  }

  function TakeTail(text: string, budget: int): string {
    if budget <= 0 then ""
    else
      var slice := text[if budget < |text| then |text| - budget else 0..];
      var firstBreak := FirstIndex(slice, '\n');
      if firstBreak < |slice| - 1 then slice[firstBreak + 1..] else slice
  }

  function Max(a: int, b: int): int {
    if a < b then b else a
  }

  function Kept(text: string, budget: nat, bias: Bias, line: string): string {
    match bias
    case Head => TakeHead(text, budget) + line
    case Tail => line + TakeTail(text, budget)
    case Both =>
      var tailBudget := budget * 2 / 3;
      TakeHead(text, budget - tailBudget) + line + TakeTail(text, tailBudget)
  }

  function TruncateText(text: string, options: Options): TruncateResult {
    if |text| <= options.maxBytes then TruncateResult(text, false, |text|, |text|)
    else
      var line := MarkerLine(options);
      var kept := Kept(text, Max(0, options.maxBytes - |line|), options.bias, line);
      TruncateResult(kept, true, |text|, |kept|)
  }

  /** A head of a text: all that the budget allows, where no newline stands in it behind the first character, and otherwise
      what stands before the last such newline. */
  predicate IsHead(text: string, budget: nat, h: string)
    requires budget <= |text|
  {
    && h <= text
    && if |h| == budget then forall j :: 0 < j < budget ==> text[j] != '\n'
       else 0 < |h| < budget && text[|h|] == '\n' && forall j :: |h| < j < budget ==> text[j] != '\n'
  }

  /** A tail: all that the budget allows, where no newline stands in it before the last character, and otherwise what stands
      behind the first such newline. */
  predicate IsTail(text: string, budget: nat, t: string)
    requires budget <= |text|
  {
    && |t| <= |text| && t == text[|text| - |t|..]
    && if |t| == budget then forall j :: |text| - budget <= j < |text| - 1 ==> text[j] != '\n'
       else
         && 0 < |t| < budget && text[|text| - |t| - 1] == '\n'
         && forall j :: |text| - budget <= j < |text| - |t| - 1 ==> text[j] != '\n'
  }

  /** These describe one text each. */
  lemma HeadOnce(text: string, budget: nat, g: string, h: string)
    requires budget <= |text| && IsHead(text, budget, g) && IsHead(text, budget, h)
    ensures g == h
  {
    assert |g| == |h|;
  }

  lemma TailOnce(text: string, budget: nat, s: string, t: string)
    requires budget <= |text| && IsTail(text, budget, s) && IsTail(text, budget, t)
    ensures s == t
  {
    assert |s| == |t|;
  }

  lemma HeadIs(text: string, budget: nat)
    requires budget <= |text|
    ensures IsHead(text, budget, TakeHead(text, budget))
  {
    var slice := text[..budget];
    assert slice == if budget < |text| then text[..budget] else text;
    var last := LastBreak(slice);
    forall j | last < j < budget && 0 <= j ensures text[j] != '\n' {
      assert slice[j] == text[j];
      LastBreakLast(slice, j);
    }
  }

  lemma TailIs(text: string, budget: nat)
    requires budget <= |text|
    ensures IsTail(text, budget, TakeTail(text, budget))
  {
    if budget > 0 {
      var start := |text| - budget;
      var slice := text[start..];
      assert |text| == budget ==> text[0..] == slice;
      var first := FirstIndex(slice, '\n');
      FirstIndexFirst(slice, '\n');
      forall j | start <= j < start + first ensures text[j] != '\n' {
        assert slice[j - start] in slice[..first];
      }
      if first < budget - 1 {
        DropDrop(text, start, first + 1);
      }
    }
  }

  /** The budgets of the two ends; with the default bias two thirds go to the tail. */
  function HeadBudget(budget: nat, bias: Bias): nat {
    match bias
    case Head => budget
    case Tail => 0
    case Both => budget - budget * 2 / 3
  }

  /** What is kept of a text: these two ends around the line. */
  predicate Ends(text: string, budget: nat, bias: Bias, line: string, head: string, tail: string)
    requires budget <= |text|
  {
    && Kept(text, budget, bias, line) == head + line + tail
    && IsHead(text, HeadBudget(budget, bias), head) && IsTail(text, budget - HeadBudget(budget, bias), tail)
  }

  lemma NoTail(text: string)
    ensures IsTail(text, 0, "") && IsHead(text, 0, "")
  {}

  lemma HeadEnds(text: string, budget: nat, line: string) returns (head: string, tail: string)
    requires budget <= |text|
    ensures Ends(text, budget, Head, line, head, tail)
  {
    head, tail := TakeHead(text, budget), "";
    HeadIs(text, budget);
    NoTail(text);
    EmptyEnds(head, line, tail);
  }

  lemma TailEnds(text: string, budget: nat, line: string) returns (head: string, tail: string)
    requires budget <= |text|
    ensures Ends(text, budget, Tail, line, head, tail)
  {
    head, tail := "", TakeTail(text, budget);
    TailIs(text, budget);
    NoTail(text);
    EmptyEnds(head, line, tail);
  }

  lemma BothEnds(text: string, budget: nat, line: string) returns (head: string, tail: string)
    requires budget <= |text|
    ensures Ends(text, budget, Both, line, head, tail)
  {
    var tailBudget := budget * 2 / 3;
    head, tail := TakeHead(text, budget - tailBudget), TakeTail(text, tailBudget);
    HeadIs(text, budget - tailBudget);
    TailIs(text, tailBudget);
  }

  lemma KeptIs(text: string, budget: nat, bias: Bias, line: string) returns (head: string, tail: string)
    requires budget <= |text|
    ensures Ends(text, budget, bias, line, head, tail)
  {
    match bias {
      case Head => head, tail := HeadEnds(text, budget, line);
      case Tail => head, tail := TailEnds(text, budget, line);
      case Both => head, tail := BothEnds(text, budget, line);
    }
  }

  lemma EmptyEnds(head: string, line: string, tail: string)
    ensures head == "" ==> head + line + tail == line + tail
    ensures tail == "" ==> head + line + tail == head + line
  {}

  /** `r` is a text shortened to a budget: a head, the line with the marker, and a tail, for which the budget less the line is
      divided by the bias. */
  predicate ShortenedBy(text: string, maxBytes: int, bias: Bias, line: string, r: string, head: string, tail: string) {
    var room := Max(0, maxBytes - |line|);
    && room <= |text| && r == head + line + tail
    && IsHead(text, if bias.Head? then room else if bias.Tail? then 0 else room - room * 2 / 3, head)
    && IsTail(text, if bias.Head? then 0 else if bias.Tail? then room else room * 2 / 3, tail)
  }

  ghost predicate IsShortened(text: string, maxBytes: int, bias: Bias, line: string, r: string) {
    exists head, tail :: ShortenedBy(text, maxBytes, bias, line, r, head, tail)
  }

  /** A text over its budget is shortened; the two ends do not overlap, and the result is within the budget unless the line
      alone is not. */
  lemma TruncatedIsEnds(text: string, options: Options) returns (head: string, tail: string)
    requires |text| > options.maxBytes
    ensures var r := TruncateText(text, options);
            && r.truncated && r.originalBytes == |text| && r.returnedBytes == |r.text|
            && ShortenedBy(text, options.maxBytes, options.bias, MarkerLine(options), r.text, head, tail)
            && |head| + |tail| <= |text| && |r.text| <= Max(options.maxBytes, |MarkerLine(options)|)
    ensures MarkerLine(options) == "\n" + options.marker + "\n"
  {
    head, tail := KeptIs(text, Max(0, options.maxBytes - |MarkerLine(options)|), options.bias, MarkerLine(options));
  }

  // ----- a list of blocks -----

  datatype Block = TextBlock(text: string) | Image(data: string)

  datatype Truncation = Truncation(originalBytes: nat, returnedBytes: nat)

  function BlockBytes(block: Block): nat {
    match block
    case TextBlock(text) => |text|
    case Image(data) => |data|
  }

  function TotalBytes(blocks: seq<Block>): nat {
    if blocks == [] then 0 else TotalBytes(blocks[..|blocks| - 1]) + BlockBytes(blocks[|blocks| - 1])
  }

  function Digits(n: nat): string {
    (if n < 10 then "" else Digits(n / 10)) + [(n % 10 + '0' as int) as char]
  }

  function OmissionNote(dropped: nat): string {
    "[... " + Digits(dropped) + " image attachment(s) omitted: over the result budget ...]"
  }

  datatype Progress = Progress(out: seq<Block>, remaining: int, dropped: nat, cut: bool)

  function Taken(p: Progress, block: Block, options: Options): Progress {
    match block
    case Image(data) =>
      if |data| <= p.remaining then p.(out := p.out + [block], remaining := p.remaining - |data|)
      else p.(dropped := p.dropped + 1, cut := true)
    case TextBlock(text) =>
      if p.remaining <= 0 then p.(cut := true)
      else
        var result := TruncateText(text, options.(maxBytes := p.remaining));
        Progress(p.out + [TextBlock(result.text)], p.remaining - result.returnedBytes, p.dropped, p.cut || result.truncated)
  }

  /** Where the first `n` blocks lead. */
  function ProgressUpTo(content: seq<Block>, options: Options, n: nat): Progress
    requires n <= |content|
  {
    if n == 0 then Progress([], options.maxBytes, 0, false)
    else Taken(ProgressUpTo(content, options, n - 1), content[n - 1], options)
  }

  function WithNote(p: Progress): seq<Block> {
    if p.dropped > 0 then p.out + [TextBlock(OmissionNote(p.dropped))] else p.out
  }

  datatype Truncated = Truncated(content: seq<Block>, truncation: Option<Truncation>)

  function TruncatedContent(content: seq<Block>, options: Options): Truncated {
    if TotalBytes(content) <= options.maxBytes then Truncated(content, None)
    else
      var p := ProgressUpTo(content, options, |content|);
      var out := WithNote(p);
      Truncated(out, if p.cut then Some(Truncation(TotalBytes(content), TotalBytes(out))) else None)
  }

  method TruncateContent(content: seq<Block>, options: Options) returns (out: seq<Block>, truncation: Option<Truncation>)
    ensures Truncated(out, truncation) == TruncatedContent(content, options)
  {
    var originalBytes := TotalBytes(content);
    if originalBytes <= options.maxBytes {
      return content, None;
    }
    out := [];
    var dropped, remaining, cut := 0, options.maxBytes, false;
    for i := 0 to |content|
      invariant Progress(out, remaining, dropped, cut) == ProgressUpTo(content, options, i)
    {
      match content[i] {
        case Image(data) =>
          var size := |data|;
          if size <= remaining {
            out := out + [content[i]];
            remaining := remaining - size;
          } else {
            dropped := dropped + 1;
            cut := true;
          }
        case TextBlock(text) =>
          if remaining <= 0 {
            cut := true;
          } else {
            var result := TruncateText(text, options.(maxBytes := remaining));
            out := out + [TextBlock(result.text)];
            remaining := remaining - result.returnedBytes;
            cut := cut || result.truncated;
          }
      }
    }
    if dropped > 0 {
      out := out + [TextBlock(OmissionNote(dropped))];
    }
    truncation := if cut then Some(Truncation(originalBytes, TotalBytes(out))) else None;
  }

  function Images(blocks: seq<Block>): nat {
    if blocks == [] then 0 else Images(blocks[..|blocks| - 1]) + (if blocks[|blocks| - 1].Image? then 1 else 0)
  }

  lemma Grown(out: seq<Block>, block: Block)
    ensures TotalBytes(out + [block]) == TotalBytes(out) + BlockBytes(block)
    ensures Images(out + [block]) == Images(out) + (if block.Image? then 1 else 0)
  {
    assert (out + [block])[..|out|] == out;
  }

  lemma TakeOneMore<T>(s: seq<T>, n: nat)
    requires 0 < n <= |s|
    ensures s[..n] == s[..n - 1] + [s[n - 1]]
  {}

  /** What holds after any number of blocks. */
  lemma {:induction false} ProgressIs(content: seq<Block>, options: Options, n: nat)
    requires n <= |content|
    ensures var p := ProgressUpTo(content, options, n);
            && TotalBytes(p.out) + p.remaining == options.maxBytes
            && (options.maxBytes >= 0 ==> p.remaining >= -|MarkerLine(options)|)
            && (options.maxBytes < 0 ==> p.remaining == options.maxBytes)
            && (p.cut || (p.out == content[..n] && if options.maxBytes >= 0 then p.remaining >= 0 else n == 0))
  {
    if n > 0 {
      ProgressIs(content, options, n - 1);
      TakenIs(ProgressUpTo(content, options, n - 1), content[n - 1], options);
      TakeOneMore(content, n);
    }
  }

  /** No image is lost unseen. */
  lemma {:induction false} ImagesCounted(content: seq<Block>, options: Options, n: nat)
    requires n <= |content|
    ensures var p := ProgressUpTo(content, options, n);
            Images(p.out) + p.dropped == Images(content[..n])
  {
    if n > 0 {
      ImagesCounted(content, options, n - 1);
      TakenCounts(ProgressUpTo(content, options, n - 1), content[n - 1], options);
      TakeOneMore(content, n);
      Grown(content[..n - 1], content[n - 1]);
    }
  }

  lemma TakenIs(p: Progress, block: Block, options: Options)
    ensures var q := Taken(p, block, options);
            && TotalBytes(q.out) + q.remaining == TotalBytes(p.out) + p.remaining
            && (p.remaining <= 0 ==> q.remaining == p.remaining)
            && (p.remaining > 0 ==> q.remaining >= -|MarkerLine(options)|)
            && (!q.cut ==> !p.cut && q.out == p.out + [block] && p.remaining >= 0 && q.remaining >= 0)
  {
    match block {
      case Image(data) =>
        Grown(p.out, block);
      case TextBlock(text) =>
        if p.remaining > 0 {
          var inner := options.(maxBytes := p.remaining);
          Grown(p.out, TextBlock(TruncateText(text, inner).text));
          if |text| > p.remaining {
            var head, tail := TruncatedIsEnds(text, inner);
          }
        }
    }
  }

  lemma TakenCounts(p: Progress, block: Block, options: Options)
    ensures var q := Taken(p, block, options);
            Images(q.out) + q.dropped == Images(p.out) + p.dropped + (if block.Image? then 1 else 0)
  {
    match block {
      case Image(data) =>
        Grown(p.out, block);
      case TextBlock(text) =>
        if p.remaining > 0 {
          Grown(p.out, TextBlock(TruncateText(text, options.(maxBytes := p.remaining)).text));
        }
    }
  }

  lemma ContentCut(content: seq<Block>, options: Options)
    requires TotalBytes(content) > options.maxBytes
    ensures var p := ProgressUpTo(content, options, |content|);
            && TotalBytes(WithNote(p)) <= Max(0, options.maxBytes) + |MarkerLine(options)| + (if p.dropped > 0 then |OmissionNote(p.dropped)| else 0)
            && (p.cut <==> options.maxBytes >= 0 || content != [])
            && Images(p.out) + p.dropped == Images(content)
  {
    ProgressIs(content, options, |content|);
    ImagesCounted(content, options, |content|);
    assert content[..|content|] == content;
    var p := ProgressUpTo(content, options, |content|);
    Grown(p.out, TextBlock(OmissionNote(p.dropped)));
  }

  /** Truncation of a list, for every budget: at most one marker line and one omission note over it; reported, with the
      true sizes, exactly when the input is over the budget and is not the empty list under a negative one; every image
      is kept whole or dropped. */
  lemma TruncatedContentIs(content: seq<Block>, options: Options)
    ensures var r := TruncatedContent(content, options);
            var dropped := Images(content) - Images(r.content);
            && dropped >= 0
            && TotalBytes(r.content) <= Max(0, options.maxBytes) + |MarkerLine(options)| + (if dropped > 0 then |OmissionNote(dropped)| else 0)
            && (r.truncation.Some? <==> TotalBytes(content) > options.maxBytes && (options.maxBytes >= 0 || content != []))
            && (r.truncation.Some? ==> r.truncation.value == Truncation(TotalBytes(content), TotalBytes(r.content)))
            && (r.truncation.None? ==> r.content == content)
  {
    if TotalBytes(content) > options.maxBytes {
      ContentCut(content, options);
      var p := ProgressUpTo(content, options, |content|);
      Grown(p.out, TextBlock(OmissionNote(p.dropped)));
    }
  }

  /** The one case in which exceeding the budget is not reported. */
  lemma NothingIsNotReported(options: Options)
    requires options.maxBytes < 0
    ensures TotalBytes([]) > options.maxBytes && TruncatedContent([], options).truncation.None?
  {
    TruncatedContentIs([], options);
  }

  /** What becomes of a block when so much room is left, and what is left then: an image is kept whole if it fits; a text is
      kept whole if it fits, shortened if it does not, and dropped when no room is left at all. */
  ghost predicate Given(block: Block, room: int, options: Options, out: Option<Block>, left: int) {
    match block
    case Image(data) => if |data| <= room then out == Some(block) && left == room - |data| else out.None? && left == room
    case TextBlock(text) =>
      if room <= 0 then out.None? && left == room
      else
        && out.Some? && out.value.TextBlock? && left == room - |out.value.text|
        && if |text| <= room then out.value.text == text
           else IsShortened(text, room, options.bias, MarkerLine(options), out.value.text)
  }

  /** The blocks share the budget from the first to the last. */
  ghost predicate Shared(content: seq<Block>, options: Options, rooms: seq<int>, parts: seq<Option<Block>>) {
    && |rooms| == |parts| + 1 && |parts| <= |content| && rooms[0] == options.maxBytes
    && forall i :: 0 <= i < |parts| ==> Given(content[i], rooms[i], options, parts[i], rooms[i + 1])
  }

  function Somes(parts: seq<Option<Block>>): seq<Block> {
    if parts == [] then []
    else Somes(parts[..|parts| - 1]) + match parts[|parts| - 1]
      case Some(block) => [block]
      case None => []
  }

  lemma TextGiven(text: string, room: int, options: Options)
    ensures var r := TruncateText(text, options.(maxBytes := room)).text;
            if |text| <= room then r == text else IsShortened(text, room, options.bias, MarkerLine(options), r)
  {
    if |text| > room {
      var head, tail := TruncatedIsEnds(text, options.(maxBytes := room));
    }
  }

  lemma OneGiven(p: Progress, block: Block, options: Options) returns (part: Option<Block>)
    ensures var q := Taken(p, block, options);
            && Given(block, p.remaining, options, part, q.remaining)
            && q.out == p.out + match part
               case Some(b) => [b]
               case None => []
  {
    var q := Taken(p, block, options);
    match block {
      case Image(data) => part := if |data| <= p.remaining then Some(block) else None;
      case TextBlock(text) =>
        if p.remaining <= 0 {
          part := None;
        } else {
          TextGiven(text, p.remaining, options);
          part := Some(TextBlock(TruncateText(text, options.(maxBytes := p.remaining)).text));
        }
    }
    assert p.out + [] == p.out;
  }

  lemma SharedOn(content: seq<Block>, options: Options, rooms: seq<int>, parts: seq<Option<Block>>, part: Option<Block>, left: int)
    requires Shared(content, options, rooms, parts) && |parts| < |content|
    requires Given(content[|parts|], rooms[|parts|], options, part, left)
    ensures Shared(content, options, rooms + [left], parts + [part])
  {
    var more, all := rooms + [left], parts + [part];
    forall i | 0 <= i < |all| ensures Given(content[i], more[i], options, all[i], more[i + 1]) {
      assert more[i] == rooms[i];
      assert i < |parts| ==> all[i] == parts[i] && more[i + 1] == rooms[i + 1];
    }
  }

  lemma SomesOn(parts: seq<Option<Block>>, part: Option<Block>)
    ensures Somes(parts + [part]) == Somes(parts) + match part
      case Some(b) => [b]
      case None => []
  {
    assert (parts + [part])[..|parts|] == parts;
  }

  lemma {:induction false} ProgressShares(content: seq<Block>, options: Options, n: nat) returns (rooms: seq<int>, parts: seq<Option<Block>>)
    requires n <= |content|
    ensures Shared(content, options, rooms, parts) && |parts| == n
    ensures ProgressUpTo(content, options, n).out == Somes(parts) && ProgressUpTo(content, options, n).remaining == rooms[n]
  {
    if n == 0 {
      rooms, parts := [options.maxBytes], [];
    } else {
      var before, given := ProgressShares(content, options, n - 1);
      var p := ProgressUpTo(content, options, n - 1);
      var part := OneGiven(p, content[n - 1], options);
      SharedOn(content, options, before, given, part, Taken(p, content[n - 1], options).remaining);
      SomesOn(given, part);
      rooms, parts := before + [Taken(p, content[n - 1], options).remaining], given + [part];
    }
  }

  /** A list over the budget becomes its blocks, each with what the ones before it have left of the budget, and a note at
      the end if images were dropped. */
  lemma ContentIsShared(content: seq<Block>, options: Options) returns (rooms: seq<int>, parts: seq<Option<Block>>)
    requires TotalBytes(content) > options.maxBytes
    ensures Shared(content, options, rooms, parts) && |parts| == |content|
    ensures var dropped := Images(content) - Images(Somes(parts));
            && dropped >= 0
            && TruncatedContent(content, options).content == Somes(parts) + if dropped > 0 then [TextBlock(OmissionNote(dropped))] else []
  {
    rooms, parts := ProgressShares(content, options, |content|);
    ImagesCounted(content, options, |content|);
    assert content[..|content|] == content;
    assert Somes(parts) + [] == Somes(parts);
  }

  /** An image in the result is one of the input, uncut. */
  lemma {:induction false} ImagesAreWhole(content: seq<Block>, options: Options, n: nat, block: Block)
    requires n <= |content|
    requires block in ProgressUpTo(content, options, n).out && block.Image?
    ensures block in content
  {
    if n > 0 && block in ProgressUpTo(content, options, n - 1).out {
      ImagesAreWhole(content, options, n - 1, block);
    }
  }

  // ----- the continuation store -----

  datatype Entry = Entry(token: string, title: string, text: string)

  /** What the store holds, oldest first, and its byte counter. */
  datatype Store = Store(entries: seq<Entry>, bytes: int)

  datatype Bounds = Bounds(maxEntries: nat, maxBytes: nat)

  /** `map.get(token)` */
  function Lookup(entries: seq<Entry>, token: string): Option<Entry> {
    if entries == [] then None
    else if entries[0].token == token then Some(entries[0])
    else Lookup(entries[1..], token)
  }

  /** `map.set(token, …)`: an existing key keeps its place. */
  function Put(entries: seq<Entry>, entry: Entry): seq<Entry> {
    if entries == [] then [entry]
    else if entries[0].token == entry.token then [entry] + entries[1..]
    else [entries[0]] + Put(entries[1..], entry)
  }

  predicate Over(store: Store, bounds: Bounds) {
    |store.entries| > bounds.maxEntries || store.bytes > bounds.maxBytes
  }

  function Evict(store: Store, bounds: Bounds): Store
    decreases |store.entries|
  {
    if Over(store, bounds) && store.entries != []
    then Evict(Store(store.entries[1..], store.bytes - |store.entries[0].text|), bounds)
    else store
  }

  function Registered(store: Store, bounds: Bounds, entry: Entry): Store {
    if |entry.text| > bounds.maxBytes then store
    else Evict(Store(Put(store.entries, entry), store.bytes + |entry.text|), bounds)
  }

  /** It is the entry with that token, if one is held. */
  lemma {:induction false} LookupIs(entries: seq<Entry>, token: string)
    ensures var r := Lookup(entries, token);
            && (r.Some? ==> r.value in entries && r.value.token == token)
            && (r.None? <==> !HasToken(entries, token))
  {
    if entries != [] {
      LookupIs(entries[1..], token);
      assert entries[0] in entries;
      assert forall e :: e in entries <==> e == entries[0] || e in entries[1..];
    }
  }

  class ContinuationStore {
    const maxEntries: nat
    const maxBytes: nat
    var entries: seq<Entry>
    var bytes: int

    function State(): Store
      reads this
    {
      Store(entries, bytes)
    }

    function Limits(): Bounds {
      Bounds(maxEntries, maxBytes)
    }

    constructor (maxEntries: nat, maxBytes: nat)
      ensures State() == Store([], 0) && Limits() == Bounds(maxEntries, maxBytes)
    {
      this.maxEntries, this.maxBytes := maxEntries, maxBytes;
      entries, bytes := [], 0;
    }

    /** `token` is what the id source would answer. */
    method Register(token: string, title: string, text: string) returns (r: Option<string>)
      modifies this
      ensures State() == Registered(old(State()), Limits(), Entry(token, title, text))
      ensures r == if |text| > maxBytes then None else Some(token)
    {
      var size := |text|;
      if size > maxBytes {
        return None;
      }
      entries := Put(entries, Entry(token, title, text));
      bytes := bytes + size;
      EvictOldest();
      r := Some(token);
    }

    method Resolve(token: string) returns (r: Option<Entry>)
      ensures r == Lookup(entries, token)
      ensures r.Some? ==> r.value in entries && r.value.token == token
      ensures r.None? <==> !HasToken(entries, token)
    {
      r := Lookup(entries, token);
      LookupIs(entries, token);
    }

    method Clear()
      modifies this
      ensures State() == Store([], 0)
    {
      entries, bytes := [], 0;
    }

    method EvictOldest()
      modifies this
      ensures State() == Evict(old(State()), Limits())
    {
      while |entries| > maxEntries || bytes > maxBytes
        invariant Evict(State(), Limits()) == Evict(old(State()), Limits())
        decreases |entries|
      {
        if |entries| == 0 {
          return;
        }
        bytes := bytes - |entries[0].text|;
        entries := entries[1..];
      }
    }
  }

  // ----- every run of the store -----

  datatype Op = Register(entry: Entry) | Clear

  function After(store: Store, bounds: Bounds, op: Op): Store {
    match op
    case Register(entry) => Registered(store, bounds, entry)
    case Clear => Store([], 0)
  }

  /** The store after a run of operations. */
  function RunFrom(start: Store, ops: seq<Op>, bounds: Bounds): Store {
    if ops == [] then start else After(RunFrom(start, ops[..|ops| - 1], bounds), bounds, ops[|ops| - 1])
  }

  function Run(ops: seq<Op>, bounds: Bounds): Store {
    RunFrom(Store([], 0), ops, bounds)
  }

  function Registrations(entries: seq<Entry>): seq<Op> {
    if entries == [] then [] else Registrations(entries[..|entries| - 1]) + [Register(entries[|entries| - 1])]
  }

  /** The store when these have been registered in it, in order. */
  function RegisteredAll(start: Store, bounds: Bounds, entries: seq<Entry>): Store {
    RunFrom(start, Registrations(entries), bounds)
  }

  lemma RegisteredNext(start: Store, bounds: Bounds, entries: seq<Entry>, entry: Entry)
    ensures RegisteredAll(start, bounds, entries + [entry]) == Registered(RegisteredAll(start, bounds, entries), bounds, entry)
  {
    var ops := Registrations(entries);
    assert (entries + [entry])[..|entries|] == entries;
    assert (ops + [Register(entry)])[..|ops|] == ops;
  }

  lemma {:induction false} RunAppend(start: Store, a: seq<Op>, b: seq<Op>, bounds: Bounds)
    ensures RunFrom(start, a + b, bounds) == RunFrom(RunFrom(start, a, bounds), b, bounds)
  {
    if b == [] {
      assert a + b == a;
    } else {
      var n := |b| - 1;
      assert (a + b)[..|a| + n] == a + b[..n];
      RunAppend(start, a, b[..n], bounds);
    }
  }

  lemma {:induction false} RegisteredAppend(start: Store, bounds: Bounds, a: seq<Entry>, b: seq<Entry>)
    ensures RegisteredAll(start, bounds, a + b) == RegisteredAll(RegisteredAll(start, bounds, a), bounds, b)
  {
    if b == [] {
      assert a + b == a;
    } else {
      var n := |b| - 1;
      assert a + b == (a + b[..n]) + [b[n]] && b == b[..n] + [b[n]];
      RegisteredAppend(start, bounds, a, b[..n]);
      RegisteredNext(start, bounds, a + b[..n], b[n]);
      RegisteredNext(RegisteredAll(start, bounds, a), bounds, b[..n], b[n]);
    }
  }

  /** The registrations accepted since the last clear. */
  function Accepted(ops: seq<Op>, bounds: Bounds): seq<Entry> {
    if ops == [] then []
    else
      var before := Accepted(ops[..|ops| - 1], bounds);
      match ops[|ops| - 1]
      case Clear => []
      case Register(entry) => if |entry.text| > bounds.maxBytes then before else before + [entry]
  }

  predicate HasToken(entries: seq<Entry>, token: string) {
    exists e <- entries :: e.token == token
  }

  /** No registration issues a token that is still held. */
  predicate FreshTokens(ops: seq<Op>, bounds: Bounds) {
    ops == [] ||
    var before, op := ops[..|ops| - 1], ops[|ops| - 1];
    && FreshTokens(before, bounds)
    && (op.Register? ==> !HasToken(Run(before, bounds).entries, op.entry.token))
  }

  function Total(entries: seq<Entry>): nat {
    if entries == [] then 0 else |entries[0].text| + Total(entries[1..])
  }

  predicate Fits(entries: seq<Entry>, bounds: Bounds) {
    |entries| <= bounds.maxEntries && Total(entries) <= bounds.maxBytes
  }

  /** The longest suffix of `log` that fits. */
  function LongestFitting(log: seq<Entry>, bounds: Bounds): seq<Entry> {
    if Fits(log, bounds) || log == [] then log else LongestFitting(log[1..], bounds)
  }

  lemma {:induction false} LongestFittingIs(log: seq<Entry>, bounds: Bounds)
    ensures var held := LongestFitting(log, bounds);
            && Fits(held, bounds) && |held| <= |log| && held == log[|log| - |held|..]
            && forall j :: 0 <= j < |log| - |held| ==> !Fits(log[j..], bounds)
  {
    if !Fits(log, bounds) {
      LongestFittingIs(log[1..], bounds);
      assert log[0..] == log;
      forall j | 0 < j <= |log| ensures log[1..][j - 1..] == log[j..] {
        DropDrop(log, 1, j - 1);
      }
    }
  }

  lemma {:induction false} TotalAppend(a: seq<Entry>, b: seq<Entry>)
    ensures Total(a + b) == Total(a) + Total(b)
  {
    if a == [] {
      assert a + b == b;
    } else {
      assert (a + b)[1..] == a[1..] + b;
      TotalAppend(a[1..], b);
    }
  }

  lemma TotalOne(entry: Entry)
    ensures Total([entry]) == |entry.text|
  {
    assert [entry][1..] == [];
  }

  lemma {:induction false} PutFresh(entries: seq<Entry>, entry: Entry)
    requires !HasToken(entries, entry.token)
    ensures Put(entries, entry) == entries + [entry]
  {
    if entries != [] {
      assert entries[0] in entries;
      assert forall e <- entries[1..] :: e in entries;
      PutFresh(entries[1..], entry);
      assert [entries[0]] + (entries[1..] + [entry]) == entries + [entry];
    }
  }

  /** Eviction with an exact counter keeps the longest suffix that fits. */
  lemma {:induction false} EvictKeepsLongest(entries: seq<Entry>, bounds: Bounds)
    ensures var held := LongestFitting(entries, bounds);
            Evict(Store(entries, Total(entries)), bounds) == Store(held, Total(held))
    decreases |entries|
  {
    if !Fits(entries, bounds) {
      EvictKeepsLongest(entries[1..], bounds);
    }
  }

  /** What was dropped before is dropped after the log has grown. */
  lemma {:induction false} LongestGrows(log: seq<Entry>, entry: Entry, bounds: Bounds)
    ensures LongestFitting(LongestFitting(log, bounds) + [entry], bounds) == LongestFitting(log + [entry], bounds)
  {
    if !Fits(log, bounds) {
      TotalAppend(log, [entry]);
      assert (log + [entry])[1..] == log[1..] + [entry];
      LongestGrows(log[1..], entry, bounds);
    }
  }

  /** One accepted registration of a fresh token. */
  lemma RegisteredHolds(held: seq<Entry>, entry: Entry, bounds: Bounds)
    requires !HasToken(held, entry.token) && |entry.text| <= bounds.maxBytes
    ensures var next := LongestFitting(held + [entry], bounds);
            Registered(Store(held, Total(held)), bounds, entry) == Store(next, Total(next))
  {
    PutFresh(held, entry);
    TotalAppend(held, [entry]);
    TotalOne(entry);
    EvictKeepsLongest(held + [entry], bounds);
  }

  /** Whatever was registered and cleared, the store holds exactly the longest suffix of the accepted
      registrations that fits both bounds, and its counter is the sum of the sizes held. */
  lemma {:induction false} HoldsLongestSuffix(ops: seq<Op>, bounds: Bounds)
    requires FreshTokens(ops, bounds)
    ensures var held := LongestFitting(Accepted(ops, bounds), bounds);
            Run(ops, bounds) == Store(held, Total(held))
  {
    if ops != [] {
      var before := ops[..|ops| - 1];
      HoldsLongestSuffix(before, bounds);
      match ops[|ops| - 1] {
        case Clear =>
        case Register(entry) =>
          if |entry.text| <= bounds.maxBytes {
            RegisteredHolds(Run(before, bounds).entries, entry, bounds);
            LongestGrows(Accepted(before, bounds), entry, bounds);
          }
      }
    }
  }

  lemma {:induction false} LookupLast(entries: seq<Entry>, entry: Entry)
    requires !HasToken(entries, entry.token)
    ensures Lookup(entries + [entry], entry.token) == Some(entry)
  {
    if entries != [] {
      assert entries[0] in entries;
      assert forall e <- entries[1..] :: e in entries;
      LookupLast(entries[1..], entry);
      assert (entries + [entry])[1..] == entries[1..] + [entry];
    }
  }

  lemma {:induction false} NewestIsFound(held: seq<Entry>, entry: Entry, bounds: Bounds)
    requires bounds.maxEntries >= 1 && |entry.text| <= bounds.maxBytes && !HasToken(held, entry.token)
    ensures Lookup(LongestFitting(held + [entry], bounds), entry.token) == Some(entry)
  {
    if Fits(held + [entry], bounds) {
      LookupLast(held, entry);
    } else {
      TotalOne(entry);
      assert held == [] ==> held + [entry] == [entry];
      assert forall e <- held[1..] :: e in held;
      assert (held + [entry])[1..] == held[1..] + [entry];
      NewestIsFound(held[1..], entry, bounds);
    }
  }

  /** A token just issued resolves to its text. */
  lemma IssuedTokenResolves(ops: seq<Op>, bounds: Bounds, entry: Entry)
    requires bounds.maxEntries >= 1 && |entry.text| <= bounds.maxBytes
    requires FreshTokens(ops, bounds) && !HasToken(Run(ops, bounds).entries, entry.token)
    ensures Lookup(Run(ops + [Register(entry)], bounds).entries, entry.token) == Some(entry)
  {
    var all := ops + [Register(entry)];
    assert all[..|all| - 1] == ops;
    HoldsLongestSuffix(ops, bounds);
    var held := Run(ops, bounds).entries;
    RegisteredHolds(held, entry, bounds);
    NewestIsFound(held, entry, bounds);
  }
}
