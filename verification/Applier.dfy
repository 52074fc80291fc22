/** The three-tier applier: search/replace blocks spliced one after the other, whole-file replacement, and an
    optional fast-apply provider; a tier's output counts only when it validates
    (packages/apply/src/applier.ts). */
module Applier {
  import opened Text
  import opened Match
  import opened Validate
  import Scanner

  datatype EditBlock = EditBlock(search: string, replace: string, occurrence: Option<int>)

  datatype Location = Location(start: nat, end: nat, line: nat, strategy: Strategy)

  datatype Reason = NotFound | Ambiguous | ParseBroken | FileTooLarge | TierUnavailable | NoOp

  /** Why a tier failed; `edit` is the number of the edit that the message names, `problem` the verdict it quotes. */
  datatype Failure = Failure(reason: Reason, edit: nat, problem: Option<ValidationResult>, candidates: seq<Location>)

  datatype Attempt = Attempt(content: string, locations: seq<Location>, strategy: Option<Strategy>)

  datatype Outcome = Done(attempt: Attempt) | Failed(failure: Failure)

  // ----- one edit -----

  datatype Splice = Spliced(content: string, location: Location) | Refused(reason: Reason, candidates: seq<Location>)

  function ToLocation(m: RawMatch): Location {
    Location(m.start, m.end, m.line, m.strategy)
  }

  function ToLocations(matches: seq<RawMatch>): (r: seq<Location>)
    ensures |r| == |matches|
    ensures forall k :: 0 <= k < |r| ==> r[k] == ToLocation(matches[k])
  {
    seq(|matches|, k requires 0 <= k < |matches| => ToLocation(matches[k]))
  }

  /** The match that an edit means, if that is settled. */
  function Choose(matches: seq<RawMatch>, occurrence: Option<int>): Option<RawMatch> {
    if matches == [] then None
    else if |matches| == 1 then Some(matches[0])
    else match occurrence
      case None => None
      case Some(k) => if 1 <= k <= |matches| then Some(matches[k - 1]) else None
  }

  /** `content.slice(0, start) + replacement + content.slice(end)` */
  function SpliceAt(content: string, start: nat, end: nat, replacement: string): string {
    (if start <= |content| then content[..start] else content) + replacement + Tail(content, end)
  }

  /** What one edit does to the current content. */
  function ApplyOne(content: string, edit: EditBlock): Splice {
    if edit.search == edit.replace then Refused(NoOp, [])
    else if edit.search == "" then Spliced(edit.replace + content, Location(0, 0, 1, Exact))
    else
      var matches := Matches(content, edit.search);
      match Choose(matches, edit.occurrence)
      case Some(m) => Spliced(SpliceAt(content, m.start, m.end, ReindentReplacement(edit.replace, m)), ToLocation(m))
      case None =>
        if |matches| > 1 && edit.occurrence.None? then Refused(Ambiguous, ToLocations(matches)) else Refused(NotFound, [])
  }

  // ----- all edits -----

  function Rank(s: Strategy): nat {
    match s case Exact => 0 case WhitespaceNormalized => 1 case IndentationTolerant => 2 case Anchored => 3
  }

  function Widest(a: Option<Strategy>, b: Strategy): Strategy {
    if a.None? then b else if Rank(b) > Rank(a.value) then b else a.value
  }

  /** The edits applied from left to right, each to what the ones before it left. */
  function ApplyEdits(original: string, edits: seq<EditBlock>): Outcome {
    if edits == [] then Done(Attempt(original, [], None))
    else
      var n := |edits| - 1;
      match ApplyEdits(original, edits[..n])
      case Failed(failure) => Failed(failure)
      case Done(Attempt(content, locations, strategy)) =>
        match ApplyOne(content, edits[n])
        case Refused(reason, candidates) => Failed(Failure(reason, n + 1, None, candidates))
        case Spliced(content', location) => Done(Attempt(content', locations + [location], Some(Widest(strategy, location.strategy))))
  }

  /** One edit of the loop: it is refused, or its match is settled and replaced. */
  method ApplyNext(content: string, edit: EditBlock) returns (s: Splice)
    ensures s == ApplyOne(content, edit)
  {
    if edit.search == edit.replace {
      return Refused(NoOp, []);
    }
    if |edit.search| == 0 {
      return Spliced(edit.replace + content, Location(0, 0, 1, Exact));
    }
    var matches, strategy := FindMatch(content, edit.search);
    if |matches| == 0 || strategy.None? {
      return Refused(NotFound, []);
    }
    var chosen := matches[0];
    if |matches| > 1 {
      if edit.occurrence.None? {
        return Refused(Ambiguous, ToLocations(matches));
      }
      if !(1 <= edit.occurrence.value <= |matches|) {
        return Refused(NotFound, []);
      }
      chosen := matches[edit.occurrence.value - 1];
    }
    s := Spliced(SpliceAt(content, chosen.start, chosen.end, ReindentReplacement(edit.replace, chosen)), ToLocation(chosen));
  }

  method ApplySearchReplace(original: string, edits: seq<EditBlock>) returns (outcome: Outcome)
    ensures outcome == ApplyEdits(original, edits)
  {
    var content := original;
    var locations: seq<Location> := [];
    var broadest: Option<Strategy> := None;
    for index := 0 to |edits|
      invariant ApplyEdits(original, edits[..index]) == Done(Attempt(content, locations, broadest))
    {
      assert edits[..index + 1][..index] == edits[..index];
      var step := ApplyNext(content, edits[index]);
      match step {
        case Refused(reason, candidates) =>
          FailureStays(original, edits, index + 1);
          return Failed(Failure(reason, index + 1, None, candidates));
        case Spliced(next, location) =>
          content := next;
          locations := locations + [location];
          broadest := Some(Widest(broadest, location.strategy));
      }
    }
    assert edits[..|edits|] == edits;
    outcome := Done(Attempt(content, locations, broadest));
  }

  lemma {:induction false} FailureStays(original: string, edits: seq<EditBlock>, n: nat)
    requires n <= |edits| && ApplyEdits(original, edits[..n]).Failed?
    ensures ApplyEdits(original, edits) == ApplyEdits(original, edits[..n])
    decreases |edits|
  {
    if n < |edits| {
      var front := edits[..|edits| - 1];
      assert front[..n] == edits[..n];
      FailureStays(original, front, n);
    } else {
      assert edits[..n] == edits;
    }
  }

  // ----- the tiers -----

  datatype Tier = SearchReplace | WholeFile | FastApply

  /** What a configured fast-apply provider answers. */
  datatype ProviderAnswer = Answered(content: string) | Threw

  datatype Request = Request(original: string, edits: seq<EditBlock>, replacement: Option<string>)

  /** The caller's options. The provider, the tree-sitter parse (`None` when it does not apply) and the length of
      a text in bytes are answers from outside. */
  datatype Options = Options(
    tiers: seq<Tier>,
    maxWholeFileBytes: nat,
    fastApply: Option<ProviderAnswer>,
    skipValidation: bool,
    parse: string -> Option<ValidationResult>,
    bytes: string -> nat,
    language: string)

  function Whole(request: Request, content: string): Outcome {
    Done(Attempt(content, [Location(0, |request.original|, 1, Exact)], None))
  }

  /** What a tier brings forth, before validation. */
  function TierOutcome(tier: Tier, request: Request, options: Options): Outcome {
    match tier
    case SearchReplace => ApplyEdits(request.original, request.edits)
    case WholeFile =>
      if request.replacement.None? then Failed(Failure(TierUnavailable, 0, None, []))
      else if options.bytes(request.replacement.value) > options.maxWholeFileBytes then Failed(Failure(FileTooLarge, 0, None, []))
      else Whole(request, request.replacement.value)
    case FastApply =>
      match options.fastApply
      case Some(Answered(content)) => Whole(request, content)
      case _ => Failed(Failure(TierUnavailable, 0, None, []))
  }

  function VerdictOn(content: string, options: Options): ValidationResult {
    if options.skipValidation then Valid(NoValidator)
    else match options.parse(content)
      case Some(r) => r
      case None => StructuralVerdict(content, options.language)
  }

  predicate Skipped(tier: Tier, options: Options) {
    tier.FastApply? && options.fastApply.None?
  }

  /** The tier has an output, and it validates. */
  predicate Accepts(tier: Tier, request: Request, options: Options) {
    !Skipped(tier, options) &&
    match TierOutcome(tier, request, options)
    case Done(attempt) => VerdictOn(attempt.content, options).Valid?
    case Failed(_) => false
  }

  /** Why a tier that is not accepted failed. */
  function TierFailure(tier: Tier, request: Request, options: Options): Failure {
    match TierOutcome(tier, request, options)
    case Done(attempt) => Failure(ParseBroken, 0, Some(VerdictOn(attempt.content, options)), [])
    case Failed(failure) => failure
  }

  /** The tiers among `tiers` that are attempted. */
  function Attempted(tiers: seq<Tier>, options: Options): (r: seq<Tier>) {
    if tiers == [] then []
    else
      var n := |tiers| - 1;
      if Skipped(tiers[n], options) then Attempted(tiers[..n], options) else Attempted(tiers[..n], options) + [tiers[n]]
  }

  datatype Telemetry = Telemetry(
    tier: Tier, strategy: Option<Strategy>, validation: Option<ValidationResult>, tiersAttempted: nat, editCount: nat, bytesChanged: nat)

  datatype ApplyResult =
    | Applied(content: string, locations: seq<Location>, telemetry: Telemetry)
    | NotApplied(reason: Reason, failure: Option<Failure>, telemetry: Telemetry)

  function Distance(a: nat, b: nat): nat {
    if a <= b then b - a else a - b
  }

  predicate NoneAccepted(tiers: seq<Tier>, request: Request, options: Options) {
    tiers == [] || (!Accepts(tiers[|tiers| - 1], request, options) && NoneAccepted(tiers[..|tiers| - 1], request, options))
  }

  /** The tier that is the diagnosis of a refusal: the last substantive failure, or the first one. */
  function Diagnose(attempted: seq<Tier>, request: Request, options: Options): Option<Tier> {
    if attempted == [] then None
    else
      var n := |attempted| - 1;
      var earlier := Diagnose(attempted[..n], request, options);
      if earlier.None? || TierFailure(attempted[n], request, options).reason != TierUnavailable then Some(attempted[n]) else earlier
  }

  /** The verdict on the last output among `attempted`. */
  function LastVerdict(attempted: seq<Tier>, request: Request, options: Options): Option<ValidationResult> {
    if attempted == [] then None
    else match TierOutcome(attempted[|attempted| - 1], request, options)
      case Done(attempt) => Some(VerdictOn(attempt.content, options))
      case Failed(_) => LastVerdict(attempted[..|attempted| - 1], request, options)
  }

  /** The result when `tiers[k]` is accepted. */
  function AppliedBy(tiers: seq<Tier>, request: Request, options: Options, k: nat): ApplyResult
    requires k < |tiers|
  {
    match TierOutcome(tiers[k], request, options)
    case Failed(_) => Refusal(tiers, request, options)
    case Done(attempt) =>
      Applied(attempt.content, attempt.locations,
              Telemetry(tiers[k], attempt.strategy, Some(VerdictOn(attempt.content, options)), |Attempted(tiers[..k + 1], options)|,
                        |request.edits|, Distance(options.bytes(attempt.content), options.bytes(request.original))))
  }

  /** The result when no tier is accepted. */
  function Refusal(tiers: seq<Tier>, request: Request, options: Options): ApplyResult {
    var attempted := Attempted(tiers, options);
    var validation := LastVerdict(attempted, request, options);
    match Diagnose(attempted, request, options)
    case Some(tier) =>
      var failure := TierFailure(tier, request, options);
      NotApplied(failure.reason, Some(failure), Telemetry(tier, None, validation, |attempted|, |request.edits|, 0))
    case None =>
      NotApplied(TierUnavailable, None, Telemetry(if tiers == [] then SearchReplace else tiers[0], None, validation, 0, |request.edits|, 0))
  }

  /** The result of a run of the applier. */
  ghost predicate IsResult(request: Request, options: Options, result: ApplyResult) {
    var tiers := options.tiers;
    match result
    case NotApplied(_, _, _) => NoneAccepted(tiers, request, options) && result == Refusal(tiers, request, options)
    case Applied(_, _, _) =>
      exists k: nat :: k < |tiers| && NoneAccepted(tiers[..k], request, options) &&
                       Accepts(tiers[k], request, options) && result == AppliedBy(tiers, request, options, k)
  }

  method ValidateAsync(content: string, options: Options) returns (r: ValidationResult)
    ensures r == VerdictOn(content, options)
  {
    if options.skipValidation {
      return Valid(NoValidator);
    }
    var parsed := options.parse(content);
    if parsed.Some? {
      return parsed.value;
    }
    r := Scanner.ValidateStructure(content, options.language);
  }

  method RunTier(tier: Tier, request: Request, options: Options) returns (outcome: Outcome)
    ensures outcome == TierOutcome(tier, request, options)
  {
    if tier.SearchReplace? {
      outcome := ApplySearchReplace(request.original, request.edits);
    } else {
      outcome := TierOutcome(tier, request, options);
    }
  }

  /** What the loop over the tiers knows after the first `i`, none of which was accepted. */
  datatype Progress = Progress(
    tiersAttempted: nat, lastFailure: Option<Failure>, lastFailureTier: Option<Tier>, lastValidation: Option<ValidationResult>, lastTier: Tier)

  function FirstTier(tiers: seq<Tier>): Tier {
    if tiers == [] then SearchReplace else tiers[0]
  }

  ghost predicate Tried(request: Request, options: Options, i: nat, p: Progress) {
    i <= |options.tiers| && NoneAccepted(options.tiers[..i], request, options)
    && var attempted := Attempted(options.tiers[..i], options);
       && p.tiersAttempted == |attempted|
       && p.lastValidation == LastVerdict(attempted, request, options)
       && p.lastFailureTier == Diagnose(attempted, request, options)
       && p.lastFailure == (if p.lastFailureTier.None? then None else Some(TierFailure(p.lastFailureTier.value, request, options)))
       && (p.lastFailureTier.None? ==> attempted == [] && p.lastTier == FirstTier(options.tiers))
  }

  /** The tier is not configured. */
  lemma TriedSkipped(request: Request, options: Options, i: nat, p: Progress)
    requires i < |options.tiers| && Tried(request, options, i, p) && Skipped(options.tiers[i], options)
    ensures Tried(request, options, i + 1, p)
  {
    assert options.tiers[..i + 1][..i] == options.tiers[..i];
  }

  function WithFailure(p: Progress, tier: Tier, failure: Failure, validation: Option<ValidationResult>): Progress {
    var counts := p.lastFailure.None? || failure.reason != TierUnavailable;
    Progress(p.tiersAttempted + 1,
             if counts then Some(failure) else p.lastFailure, if counts then Some(tier) else p.lastFailureTier,
             if validation.Some? then validation else p.lastValidation, tier)
  }

  function VerdictOfTier(tier: Tier, request: Request, options: Options): Option<ValidationResult> {
    match TierOutcome(tier, request, options)
    case Done(attempt) => Some(VerdictOn(attempt.content, options))
    case Failed(_) => None
  }

  /** The tier was attempted, in vain. */
  lemma TriedFailed(request: Request, options: Options, i: nat, p: Progress, tier: Tier)
    requires i < |options.tiers| && tier == options.tiers[i] && Tried(request, options, i, p)
    requires !Skipped(tier, options) && !Accepts(tier, request, options)
    ensures Tried(request, options, i + 1, WithFailure(p, tier, TierFailure(tier, request, options), VerdictOfTier(tier, request, options)))
  {
    var attempted := Attempted(options.tiers[..i], options);
    assert options.tiers[..i + 1][..i] == options.tiers[..i];
    assert Attempted(options.tiers[..i + 1], options) == attempted + [tier];
    FailureCounts(attempted, tier, request, options);
  }

  lemma FailureCounts(attempted: seq<Tier>, tier: Tier, request: Request, options: Options)
    ensures var all := attempted + [tier];
            var earlier := Diagnose(attempted, request, options);
            && Diagnose(all, request, options)
               == (if earlier.None? || TierFailure(tier, request, options).reason != TierUnavailable then Some(tier) else earlier)
            && LastVerdict(all, request, options)
               == (match VerdictOfTier(tier, request, options) case Some(v) => Some(v) case None => LastVerdict(attempted, request, options))
  {
    assert (attempted + [tier])[..|attempted|] == attempted;
  }

  /** The tier was accepted. */
  lemma TriedAccepted(request: Request, options: Options, i: nat, p: Progress)
    requires i < |options.tiers| && Tried(request, options, i, p) && Accepts(options.tiers[i], request, options)
    ensures AppliedBy(options.tiers, request, options, i).Applied?
    ensures AppliedBy(options.tiers, request, options, i).telemetry.tiersAttempted == p.tiersAttempted + 1
    ensures IsResult(request, options, AppliedBy(options.tiers, request, options, i))
  {
    assert options.tiers[..i + 1][..i] == options.tiers[..i];
  }

  /** No tier was accepted. */
  lemma TriedAll(request: Request, options: Options, p: Progress)
    requires Tried(request, options, |options.tiers|, p)
    ensures IsResult(request, options, Exhausted(request, p))
  {
    assert options.tiers[..|options.tiers|] == options.tiers;
  }

  function Exhausted(request: Request, p: Progress): ApplyResult {
    NotApplied(
      if p.lastFailure.Some? then p.lastFailure.value.reason else TierUnavailable,
      p.lastFailure,
      Telemetry(if p.lastFailureTier.Some? then p.lastFailureTier.value else p.lastTier, None, p.lastValidation, p.tiersAttempted, |request.edits|, 0))
  }

  method ApplyEdit(request: Request, options: Options) returns (result: ApplyResult)
    ensures IsResult(request, options, result)
  {
    var tiers := options.tiers;
    var p := Progress(0, None, None, None, FirstTier(tiers));
    for i := 0 to |tiers|
      invariant Tried(request, options, i, p)
    {
      var tier := tiers[i];
      if tier == FastApply && options.fastApply.None? {
        TriedSkipped(request, options, i, p);
        continue;
      }
      var outcome, validation := TryTier(tier, request, options);
      if outcome.Done? {
        var attempt := outcome.attempt;
        result := Applied(attempt.content, attempt.locations,
                          Telemetry(tier, attempt.strategy, validation, p.tiersAttempted + 1, |request.edits|,
                                    Distance(options.bytes(attempt.content), options.bytes(request.original))));
        TriedAccepted(request, options, i, p);
        assert result == AppliedBy(tiers, request, options, i);
        return;
      }
      TriedFailed(request, options, i, p, tier);
      p := WithFailure(p, tier, outcome.failure, validation);
    }
    TriedAll(request, options, p);
    result := Exhausted(request, p);
  }

  /** Runs a tier and validates its output: done when it is accepted, else its failure. */
  method TryTier(tier: Tier, request: Request, options: Options) returns (outcome: Outcome, validation: Option<ValidationResult>)
    requires !Skipped(tier, options)
    ensures outcome == if Accepts(tier, request, options) then TierOutcome(tier, request, options) else Failed(TierFailure(tier, request, options))
    ensures validation == VerdictOfTier(tier, request, options)
  {
    outcome := RunTier(tier, request, options);
    if outcome.Failed? {
      return outcome, None;
    }
    var r := ValidateAsync(outcome.attempt.content, options);
    if !r.Valid? {
      outcome := Failed(Failure(ParseBroken, 0, Some(r), []));
    }
    validation := Some(r);
  }
}
