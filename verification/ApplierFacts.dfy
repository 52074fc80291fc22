/** What the edit applier promises: exact blocks are replaced at the leftmost place or refused as ambiguous, a
    success is a chain of single splices, the first tier that validates wins, and a refusal carries the right
    diagnosis. */
module ApplierFacts {
  import opened Text
  import opened Match
  import opened MatchFacts
  import opened Validate
  import opened Applier
  import Grammar
  import GrammarFacts
  import Prepend
  import A = Agreement

  // ----- one edit -----

  ghost predicate TwoDisjoint(content: string, search: string) {
    exists p: nat, q: nat :: Occurs(content, search, p) && Occurs(content, search, q) && p + |search| <= q
  }

  /** A block that occurs exactly and names no occurrence is refused as ambiguous exactly when two occurrences do
      not overlap; otherwise its leftmost occurrence is replaced, and nothing else changes. */
  lemma ExactBlock(content: string, search: string, replace: string)
    requires search != "" && search != replace && Find(content, search).Some?
    ensures var p := Find(content, search).value;
            && Occurs(content, search, p)
            && match ApplyOne(content, EditBlock(search, replace, None))
               case Refused(reason, _) => reason == Ambiguous && TwoDisjoint(content, search)
               case Spliced(content', location) =>
                 && !TwoDisjoint(content, search)
                 && content' == content[..p] + replace + content[p + |search|..]
                 && location == Location(p, p + |search|, 1 + Newlines(content[..p]), Exact)
  {
    ExactMatchesAmbiguity(content, search);
    FindOccurs(content, search);
    var m := Matches(content, search)[0];
    ExactIsGreedy(content, search, 0);
    GreedyIsDisjoint(content, search, 0);
  }

  /** The strategy whose matches `Matches` returns. */
  function Deciding(content: string, search: string): Strategy
    requires search != ""
  {
    if ExactMatches(content, search) != [] then Exact
    else if NormalizedMatches(content, search) != [] then WhitespaceNormalized
    else if IndentMatches(content, search) != [] then IndentationTolerant
    else Anchored
  }

  lemma MatchesAreOf(content: string, search: string, exact: seq<RawMatch>, normalized: seq<RawMatch>, indented: seq<RawMatch>)
    requires search != ""
    requires exact == ExactMatches(content, search) && normalized == NormalizedMatches(content, search) && indented == IndentMatches(content, search)
    ensures Matches(content, search) == Strategies(content, search, Deciding(content, search))
  {}

  lemma MatchesOfStrategy(content: string, search: string, m: RawMatch) returns (strategy: Strategy)
    requires search != "" && m in Matches(content, search)
    ensures m in Strategies(content, search, strategy)
  {
    strategy := Deciding(content, search);
    MatchesAreOf(content, search, ExactMatches(content, search), NormalizedMatches(content, search), IndentMatches(content, search));
  }

  /** Every edit that is applied replaces one region that lies in the file, and the reported line is the region's. */
  lemma SpliceIsLocal(content: string, edit: EditBlock)
    requires ApplyOne(content, edit).Spliced?
    ensures var Spliced(content', l) := ApplyOne(content, edit);
            && l.start <= l.end <= |content| && l.line == 1 + Newlines(content[..l.start])
            && exists inserted :: content' == content[..l.start] + inserted + content[l.end..]
  {
    var Spliced(content', l) := ApplyOne(content, edit);
    if edit.search == "" {
      assert content' == content[..0] + edit.replace + content[0..];
    } else {
      var m := Choose(Matches(content, edit.search), edit.occurrence).value;
      assert m in Matches(content, edit.search);
      var strategy := MatchesOfStrategy(content, edit.search, m);
      EveryMatchWellPlaced(content, edit.search, m, strategy);
      assert content' == content[..l.start] + ReindentReplacement(edit.replace, m) + content[l.end..];
    }
  }

  // ----- what an edit inserts, and where -----

  /** A line of a replacement, moved from one indentation to another: blank lines stay, a line that starts with the one gets
      the other for it, and any other line gets it in front of its text. */
  predicate MovedTo(line: string, found: string, search: string, r: string) {
    if A.White(line) then r == line
    else if search <= line then r == found + line[|search|..]
    else r == found + TrimStart(line)
  }

  /** What is inserted for a replacement: itself, unless the match has two different indentations; then its lines, each
      moved from the one searched for to the one found. */
  ghost predicate Inserts(replacement: string, indents: Option<Indents>, inserted: string) {
    if indents.None? || indents.value.found == indents.value.search then inserted == replacement
    else
      exists lines: seq<string> ::
        && |lines| == |SplitLines(replacement)| && inserted == Join(lines, "\n")
        && forall j :: 0 <= j < |lines| ==> MovedTo(SplitLines(replacement)[j], indents.value.found, indents.value.search, lines[j])
  }

  lemma ReindentInserts(replacement: string, m: RawMatch)
    ensures Inserts(replacement, m.indents, ReindentReplacement(replacement, m))
  {
    if m.indents.Some? && m.indents.value.found != m.indents.value.search {
      LinesMoved(SplitLines(replacement), m.indents.value);
    }
  }

  lemma LinesMoved(lines: seq<string>, indents: Indents)
    ensures var out := ReindentLines(lines, indents);
            |out| == |lines| && forall j :: 0 <= j < |out| ==> MovedTo(lines[j], indents.found, indents.search, out[j])
  {
    forall j | 0 <= j < |lines| ensures MovedTo(lines[j], indents.found, indents.search, ReindentLine(lines[j], indents)) {
      IsBlankIff(lines[j]);
    }
  }

  /** The match that an edit means: the only one, or of several the one with that number, counted in file order from one. */
  ghost predicate Means(matches: seq<RawMatch>, occurrence: Option<int>, m: RawMatch) {
    && A.InFileOrder(matches)
    && if |matches| == 1 then m == matches[0]
       else occurrence.Some? && 1 <= occurrence.value <= |matches| && m == matches[occurrence.value - 1]
  }

  /** What one edit does, case by case: searching for what it writes is refused; searching for nothing puts it in front; with
      several matches and no number it is refused as ambiguous, with all of them; with none, or without one of that number,
      it is refused as not found; and else the meant region, and nothing but that, gives way to what the edit inserts. */
  lemma EditIs(content: string, edit: EditBlock)
    ensures var r, matches := ApplyOne(content, edit), Matches(content, edit.search);
            if edit.search == edit.replace then r == Refused(NoOp, [])
            else if edit.search == "" then r == Spliced(edit.replace + content, Location(0, 0, 1, Exact))
            else if |matches| > 1 && edit.occurrence.None? then r.Refused? && r.reason == Ambiguous && LocationsOf(matches, r.candidates)
            else if !exists m :: Means(matches, edit.occurrence, m) then r == Refused(NotFound, [])
            else
              exists m, inserted ::
                && Means(matches, edit.occurrence, m) && Inserts(edit.replace, m.indents, inserted)
                && m.start <= m.end <= |content|
                && r == Spliced(content[..m.start] + inserted + content[m.end..], Location(m.start, m.end, m.line, m.strategy))
  {
    A.MatchesInOrder(content, edit.search);
    if edit.search != edit.replace && edit.search != "" {
      EditOf(content, edit, Matches(content, edit.search));
    }
  }

  /** These are where the matches are, in their order. */
  predicate LocationsOf(matches: seq<RawMatch>, locations: seq<Location>) {
    |locations| == |matches| &&
    forall k :: 0 <= k < |matches| ==> locations[k] == Location(matches[k].start, matches[k].end, matches[k].line, matches[k].strategy)
  }

  lemma ChosenIsMeant(matches: seq<RawMatch>, occurrence: Option<int>)
    requires A.InFileOrder(matches)
    ensures match Choose(matches, occurrence)
            case None => forall m :: !Means(matches, occurrence, m)
            case Some(m) => Means(matches, occurrence, m) && m in matches
  {}

  lemma EditOf(content: string, edit: EditBlock, matches: seq<RawMatch>)
    requires edit.search != edit.replace && edit.search != "" && matches == Matches(content, edit.search) && A.InFileOrder(matches)
    ensures var r := ApplyOne(content, edit);
            if |matches| > 1 && edit.occurrence.None? then r.Refused? && r.reason == Ambiguous && LocationsOf(matches, r.candidates)
            else if !exists m :: Means(matches, edit.occurrence, m) then r == Refused(NotFound, [])
            else
              exists m, inserted ::
                && Means(matches, edit.occurrence, m) && Inserts(edit.replace, m.indents, inserted)
                && m.start <= m.end <= |content|
                && r == Spliced(content[..m.start] + inserted + content[m.end..], Location(m.start, m.end, m.line, m.strategy))
  {
    ChosenIsMeant(matches, edit.occurrence);
    match Choose(matches, edit.occurrence) {
      case None =>
      case Some(m) => SplicedIs(content, edit, m);
    }
  }

  lemma SplicedIs(content: string, edit: EditBlock, m: RawMatch)
    requires edit.search != edit.replace && edit.search != "" && Choose(Matches(content, edit.search), edit.occurrence) == Some(m)
    ensures m.start <= m.end <= |content|
    ensures var inserted := ReindentReplacement(edit.replace, m);
            && Inserts(edit.replace, m.indents, inserted)
            && ApplyOne(content, edit)
               == Spliced(content[..m.start] + inserted + content[m.end..], Location(m.start, m.end, m.line, m.strategy))
  {
    assert m in Matches(content, edit.search);
    var strategy := MatchesOfStrategy(content, edit.search, m);
    EveryMatchWellPlaced(content, edit.search, m, strategy);
    ReindentInserts(edit.replace, m);
  }

  /** Putting a valid block of whole lines at the top of a file never changes whether the file is valid. */
  lemma PrependIsSafe(content: string, block: string, occurrence: Option<int>, language: string)
    requires Prepend.EndsLine(block) && StructuralVerdict(block, language).Valid?
    ensures var result := ApplyOne(content, EditBlock("", block, occurrence));
            && result == Spliced(block + content, Location(0, 0, 1, Exact))
            && (StructuralVerdict(result.content, language).Valid? <==> StructuralVerdict(content, language).Valid?)
  {
    var d, end := Prepend.PrependKeepsVerdict(block, content, language);
  }

  // ----- several edits -----

  /** The `k`-th edit is spliced into what the first `k` edits made, at the `k`-th location. */
  predicate SplicedAt(original: string, edits: seq<EditBlock>, locations: seq<Location>, k: nat) {
    && k < |edits| && k < |locations|
    && ApplyEdits(original, edits[..k]).Done? && ApplyEdits(original, edits[..k + 1]).Done?
    && var before, after := ApplyEdits(original, edits[..k]).attempt, ApplyEdits(original, edits[..k + 1]).attempt;
       && ApplyOne(before.content, edits[k]) == Spliced(after.content, locations[k])
       && before.locations == locations[..k]
  }

  lemma LastSpliced(original: string, edits: seq<EditBlock>)
    requires edits != [] && ApplyEdits(original, edits).Done?
    ensures var n := |edits| - 1;
            && ApplyEdits(original, edits[..n]).Done?
            && var before, done := ApplyEdits(original, edits[..n]).attempt, ApplyEdits(original, edits).attempt;
               |done.locations| == |before.locations| + 1
               && done.locations == before.locations + [done.locations[|before.locations|]]
               && ApplyOne(before.content, edits[n]) == Spliced(done.content, done.locations[|before.locations|])
  {}

  lemma SplicedEarlier(original: string, edits: seq<EditBlock>, front: seq<Location>, last: Location, k: nat)
    requires edits != [] && SplicedAt(original, edits[..|edits| - 1], front, k)
    ensures SplicedAt(original, edits, front + [last], k)
  {
    var n := |edits| - 1;
    assert edits[..n][..k] == edits[..k] && edits[..n][..k + 1] == edits[..k + 1];
    assert (front + [last])[..k] == front[..k];
  }

  /** A success is a chain: one location for each edit, and each edit spliced into what the ones before it made. */
  lemma {:induction false} SuccessIsChain(original: string, edits: seq<EditBlock>, k: nat)
    requires ApplyEdits(original, edits).Done? && k <= |edits|
    ensures |ApplyEdits(original, edits).attempt.locations| == |edits|
    ensures k < |edits| ==> SplicedAt(original, edits, ApplyEdits(original, edits).attempt.locations, k)
    decreases |edits|
  {
    if edits != [] {
      var n := |edits| - 1;
      LastSpliced(original, edits);
      var locations := ApplyEdits(original, edits[..n]).attempt.locations;
      SuccessIsChain(original, edits[..n], if k < n then k else n);
      if k < n {
        SplicedEarlier(original, edits, locations, ApplyEdits(original, edits).attempt.locations[n], k);
      } else if k == n {
        assert edits[..n + 1] == edits && (locations + [ApplyEdits(original, edits).attempt.locations[n]])[..n] == locations;
      }
    }
  }

  /** The reported strategy is the least strict one among all locations. */
  lemma {:induction false} StrategyIsWidest(original: string, edits: seq<EditBlock>)
    requires ApplyEdits(original, edits).Done?
    ensures var Attempt(_, locations, strategy) := ApplyEdits(original, edits).attempt;
            && (strategy.None? <==> edits == [])
            && (strategy.Some? ==> exists l <- locations :: l.strategy == strategy.value)
            && forall l <- locations :: strategy.Some? && Rank(l.strategy) <= Rank(strategy.value)
    decreases |edits|
  {
    if edits != [] {
      var n := |edits| - 1;
      StrategyIsWidest(original, edits[..n]);
      var before := ApplyEdits(original, edits[..n]).attempt;
      var done := ApplyEdits(original, edits).attempt;
      var last := done.locations[|before.locations|];
      assert done.locations == before.locations + [last];
      assert last in done.locations;
    }
  }

  /** A failure names the first edit that cannot be applied to what the ones before it made. */
  lemma {:induction false} FailureIsFirst(original: string, edits: seq<EditBlock>)
    requires ApplyEdits(original, edits).Failed?
    ensures var f := ApplyEdits(original, edits).failure;
            && 1 <= f.edit <= |edits| && ApplyEdits(original, edits[..f.edit - 1]).Done?
            && ApplyOne(ApplyEdits(original, edits[..f.edit - 1]).attempt.content, edits[f.edit - 1]) == Refused(f.reason, f.candidates)
    decreases |edits|
  {
    var n := |edits| - 1;
    if ApplyEdits(original, edits[..n]).Failed? {
      var f := ApplyEdits(original, edits[..n]).failure;
      assert ApplyEdits(original, edits).failure == f;
      FailureIsFirst(original, edits[..n]);
      assert edits[..n][..f.edit - 1] == edits[..f.edit - 1];
    }
  }

  // ----- the tiers -----

  lemma {:induction false} NoneAcceptedIs(tiers: seq<Tier>, request: Request, options: Options)
    ensures NoneAccepted(tiers, request, options) <==> forall t <- tiers :: !Accepts(t, request, options)
  {
    if tiers != [] {
      var n := |tiers| - 1;
      NoneAcceptedIs(tiers[..n], request, options);
      assert tiers == tiers[..n] + [tiers[n]];
    }
  }

  /** Content that the applier returns validates; without a tree-sitter parse it is in the grammar of its language. */
  lemma AppliedContentIsValid(request: Request, options: Options, result: ApplyResult)
    requires IsResult(request, options, result) && result.Applied?
    ensures VerdictOn(result.content, options).Valid?
    ensures var spec := SpecFor(options.language);
            !options.skipValidation && options.parse(result.content).None? && !spec.family.Unknown? ==>
              Grammar.InGrammar(spec, result.content) && (spec.checkIndentation ==> Coherent(SplitLines(result.content)))
  {
    GrammarFacts.ValidIffGrammar(result.content, options.language);
  }

  /** The edit is applied exactly when some tier has an output that validates, and then by the first such tier. */
  lemma FirstValidTierWins(request: Request, options: Options, result: ApplyResult)
    requires IsResult(request, options, result)
    ensures result.Applied? <==> exists t <- options.tiers :: Accepts(t, request, options)
    ensures result.Applied? ==>
              exists k: nat ::
                && k < |options.tiers| && result.telemetry.tier == options.tiers[k] && Accepts(options.tiers[k], request, options)
                && (forall j :: 0 <= j < k ==> !Accepts(options.tiers[j], request, options))
                && TierOutcome(options.tiers[k], request, options) == Done(Attempt(result.content, result.locations, result.telemetry.strategy))
                && result.telemetry.tiersAttempted == |Attempted(options.tiers[..k + 1], options)|
    ensures result.Applied? ==>
              && result.telemetry.validation == Some(VerdictOn(result.content, options)) && result.telemetry.editCount == |request.edits|
              && (options.bytes(request.original) + result.telemetry.bytesChanged == options.bytes(result.content)
                  || options.bytes(result.content) + result.telemetry.bytesChanged == options.bytes(request.original))
  {
    var tiers := options.tiers;
    NoneAcceptedIs(tiers, request, options);
    if result.Applied? {
      var k: nat :| k < |tiers| && NoneAccepted(tiers[..k], request, options) &&
                    Accepts(tiers[k], request, options) && result == AppliedBy(tiers, request, options, k);
      NoneAcceptedIs(tiers[..k], request, options);
      forall j | 0 <= j < k ensures !Accepts(tiers[j], request, options) {
        assert tiers[j] in tiers[..k];
      }
      assert tiers[k] in tiers;
    }
  }

  /** What a tier brings forth: the edits, one after the other; the whole replacement, when there is one and it is not too
      large; or what the provider answers. A whole file is one location. */
  lemma TierIs(tier: Tier, request: Request, options: Options)
    ensures var o := TierOutcome(tier, request, options);
            match tier
            case SearchReplace => o == ApplyEdits(request.original, request.edits)
            case WholeFile =>
              if request.replacement.None? then o.Failed? && o.failure.reason == TierUnavailable
              else if options.bytes(request.replacement.value) > options.maxWholeFileBytes then o.Failed? && o.failure.reason == FileTooLarge
              else o == Done(Attempt(request.replacement.value, [Location(0, |request.original|, 1, Exact)], None))
            case FastApply =>
              if options.fastApply.Some? && options.fastApply.value.Answered?
              then o == Done(Attempt(options.fastApply.value.content, [Location(0, |request.original|, 1, Exact)], None))
              else o.Failed? && o.failure.reason == TierUnavailable
  {}

  /** A result validates when the caller skips validation, or the parser says so, or, where it does not apply, the structural
      validator. */
  lemma VerdictIs(content: string, options: Options)
    ensures VerdictOn(content, options).Valid?
       <==> options.skipValidation || (if options.parse(content).Some? then options.parse(content).value.Valid?
                                       else StructuralVerdict(content, options.language).Valid?)
  {}

  predicate Substantive(t: Tier, request: Request, options: Options) {
    TierFailure(t, request, options).reason != TierUnavailable
  }

  /** The diagnosis is the last substantive failure; when there is none, it is the first tier's. */
  lemma {:induction false} DiagnosisIs(attempted: seq<Tier>, request: Request, options: Options)
    ensures match Diagnose(attempted, request, options)
            case None => attempted == []
            case Some(tier) =>
              exists k: nat ::
                && k < |attempted| && attempted[k] == tier
                && (forall j :: k < j < |attempted| ==> !Substantive(attempted[j], request, options))
                && (Substantive(tier, request, options) || k == 0)
  {
    if attempted != [] {
      var n := |attempted| - 1;
      DiagnosisIs(attempted[..n], request, options);
      if Diagnose(attempted[..n], request, options).None? || Substantive(attempted[n], request, options) {
        assert attempted[n] == Diagnose(attempted, request, options).value;
      } else {
        var tier := Diagnose(attempted[..n], request, options).value;
        var k: nat :| k < n && attempted[..n][k] == tier && (forall j :: k < j < n ==> !Substantive(attempted[..n][j], request, options)) &&
                      (Substantive(tier, request, options) || k == 0);
        assert attempted[k] == tier;
        forall j | k < j < |attempted| ensures !Substantive(attempted[j], request, options) {
          assert j < n ==> attempted[..n][j] == attempted[j];
        }
      }
    }
  }

  /** Why a tier did not do: the failure it ended with itself, or that its output does not validate, with the verdict. */
  predicate Explains(failure: Failure, tier: Tier, request: Request, options: Options) {
    match TierOutcome(tier, request, options)
    case Failed(own) => failure == own
    case Done(attempt) =>
      && failure.reason == ParseBroken && failure.edit == 0 && failure.candidates == []
      && failure.problem == Some(VerdictOn(attempt.content, options)) && VerdictOn(attempt.content, options).Invalid?
  }

  lemma NotAccepted(tiers: seq<Tier>, tier: Tier, request: Request, options: Options)
    requires NoneAccepted(tiers, request, options) && tier in tiers && !Skipped(tier, options)
    ensures Explains(TierFailure(tier, request, options), tier, request, options)
  {
    NoneAcceptedIs(tiers, request, options);
  }

  /** A refusal: nothing validated, and the tier, the reason and the message all come from the diagnosis. */
  lemma RefusalIsDiagnosed(request: Request, options: Options, result: ApplyResult)
    requires IsResult(request, options, result) && result.NotApplied?
    ensures var attempted := Attempted(options.tiers, options);
            && result.telemetry.tiersAttempted == |attempted| && result.telemetry.bytesChanged == 0
            && (if attempted == [] then result.reason == TierUnavailable && result.failure.None?
                else
                  && result.telemetry.tier in attempted
                  && result.failure == Some(TierFailure(result.telemetry.tier, request, options))
                  && Explains(result.failure.value, result.telemetry.tier, request, options)
                  && result.reason == result.failure.value.reason
                  && (result.reason == TierUnavailable ==> forall t <- attempted :: !Substantive(t, request, options)))
  {
    var attempted := Attempted(options.tiers, options);
    DiagnosisIs(attempted, request, options);
    AttemptedIs(options.tiers, options);
    if attempted != [] {
      NotAccepted(options.tiers, result.telemetry.tier, request, options);
    }
  }

  /** Every tier is attempted but `fast-apply` without a provider. */
  lemma {:induction false} AttemptedIs(tiers: seq<Tier>, options: Options)
    ensures forall t :: t in Attempted(tiers, options) <==> t in tiers && !Skipped(t, options)
    ensures options.fastApply.Some? ==> Attempted(tiers, options) == tiers
  {
    if tiers != [] {
      var n := |tiers| - 1;
      AttemptedIs(tiers[..n], options);
      assert tiers == tiers[..n] + [tiers[n]];
    }
  }
}
