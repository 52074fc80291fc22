# Adze: a verified model of the edit applier and the turn machine

The Dafny files here model the parts of Adze that decide things: how an edit is located and put into a file, when
the result counts as intact, and what one turn of the agent does with a model, its tools, the hooks, the user's
answers and the budget. Each module carries the operations of one source file, in the form that file has: a class
where the source updates fields, a loop with its invariants where the source loops, and functions where it has
expressions. Every loop and every class method is proved against a specification function, and the theorems are
about those functions, for all inputs and all runs.

| module | models |
|---|---|
| `Text` | the string operations the others call: searching, trimming, splitting, joining |
| `Validate`, `Scanner`, `Grammar`, `GrammarFacts`, `Indentation`, `Framing`, `LineReports`, `Prepend` | the structural validator and its loops, the grammar it accepts, what its indentation check asks of a text, which line it reports, and what putting lines in front of a text does |
| `Match`, `MatchFacts`, `Words`, `Agreement`, `Reindent`, `Tolerance` | the four search strategies, where they match, when lines agree for each of them, re-indentation, and which shifts of the indentation are found |
| `Applier`, `ApplierFacts` | search/replace, the tiers, and what a result says |
| `Cost`, `Budget`, `Events`, `Session`, `Hooks`, `Permissions`, `GateFacts`, `Truncate`, `Dispatch` | the parts a turn is made of, and what the permission gate grants |
| `Turn`, `TurnFacts`, `TurnTrace`, `TurnHistory` | the turn machine, what every turn guarantees, what its events tell a reader, and how the history follows from them |
| `EngineFacts`, `OneCall` | what a turn leaves in the permission gate and the store, and turns with one call that show what can go wrong |
| `Glob`, `GlobFacts`, `Semver`, `Redact`, `RedactFacts`, `Fenced` | globs, versions and ranges, secrets, the fenced edit format |

**How the world enters.** Whatever the engine cannot decide by itself is an explicit argument, so a theorem about all
arguments is a theorem about all runs. A turn is given a list of rounds; each says what the abort signal and the clock
read, which chunks the model streams and whether the stream then fails, and, for each call, how every hook answers the
arguments it is shown, what the tool's schema and effects are, what the user answers, how the tool ends, and what the
calls of a subagent that it runs put to the gate and the store, which they share with the call. A turn that the rounds
do not bring to an end is cancelled behind them, so every list of rounds is a run.

**Points where the code does not do what one might expect.** The model follows the code.

- `packages/core/src/turn.ts:449-450` says that a started call is one that ran. An unknown tool, refused arguments and
  effects that cannot be told are reported as started and finished too: `Dispatch.ExecutedWithoutRunning` says exactly
  when, and `OneCall.UnknownIsStarted` shows the events of such a call.
- `packages/apply/src/match.ts:159-165` allows a uniform shift of a block's indentation, and nothing else. The
  code falls short of both. A block that ends shallower than it begins is not found after a shift: `Tolerance.ShallowerIsMissed` is
  one, and by `Tolerance.ShiftedIsFoundIff` a shifted window is reported if and only if none of its lines is shallower than
  its first one. And a window can be reported that no shift makes of the block: `Tolerance.UnderindentedStays` is one, and
  by `Tolerance.FoundIsShiftedIff` a reported window is a shift of the block if and only if no line of the block is
  shallower than its first one.
- Re-indentation is not always the inverse of indentation-tolerant matching. When the indentation found is the one
  searched for, `packages/apply/src/match.ts:335` returns its input, although an under-indented line was matched as if it
  had been moved: `Tolerance.UnderindentedStays` is such a match too. `Reindent.ReindentUndoesTolerance` gives the exact
  condition, line by line.
- `packages/mcp/src/redact.ts:58-67` promises that no known secret is left. One is, when it can be put together from a
  replacement and what stands around it: `RedactFacts.BracketedSecretStays`. The exact condition can be checked from the
  secret alone. By `RedactFacts.SecretIsSafeIff`, every registry removes a secret from every text if and only if, in each
  position where the secret would overlap the replacement word, the two differ in some character of the overlap.
  `RedactFacts.RemovedIff` is the exact condition for one needle by itself, which fewer needles fail
  (`RedactFacts.TouchingCanBeRemoved`).
- A history is linear after a turn only if the results that were appended carry the ids of their calls, which a
  `tool.post` hook could change. `TurnFacts.HistoryIsLinearIff` is the equivalence for one turn, `OneCall.LinearForAllIff`
  the one that can be checked beforehand, on the hooks, and `OneCall.RenamingHookBreaks` a hook that breaks it.
- `packages/core/src/turn.ts:356-373` lowers the timeout of a call so that the turn's ceiling holds for it too. The timeout
  is computed once for all calls of a step, so that a later call can end behind the ceiling: `Budget.SecondCallIsLate`. By
  `Budget.NarrowedIsTightest` a call is sure to end in time if and only if its whole timeout fits from where it starts, and
  by `Budget.StepEndsInTimeIff` the calls of a step all are if and only if that many timeouts fit one behind the other.
- Two commands can share a signature, so that an approval of one for the session is an approval of the other:
  `GateFacts.WordsRunTogether` is a pair, because `packages/core/src/permissions.ts:564` joins the words with blanks.
  `GateFacts.SignatureIff` says which effects share one, and by `GateFacts.PlainCommandsDiffer` commands whose words hold no
  blank share one only if they are the same.
- A wider sandbox mode can take away what was allowed without asking, when the broker contains commands in the narrower
  mode only: `Permissions.WideningCanLose`. The brokers of the repository do not; `Permissions.WideningIsSafeIff` is the
  exact condition on the configuration.
- Truncation of an empty list under a negative budget reports nothing although the budget is exceeded
  (`Truncate.NothingIsNotReported`); `Truncate.TruncatedContentIs` has the condition for every budget.
- An escaped newline inside a string or a template does not advance the line counter of the validator.
  `LineReports.ReportedLineIs` says by how much a reported line is too small and that it is right if and only if none was
  stepped over, `LineReports.EscapedNewlineMisleads` is a text where it is wrong. Besides, an unterminated string is
  reported at the line behind it.

## Model

| member | source | states |
|---|---|---|
| Scanner.ValidateStructure | packages/apply/src/validate.ts:159-334 | The scanning loop over two stacks returns the verdict of the one-round-at-a-time specification, with the same issue and line. |
| Scanner.CheckIndentationCoherence | packages/apply/src/validate.ts:349-384 | The nested loops return the first line whose block is missing or not deeper, if there is one. |
| Validate.FirstIssueIs | packages/apply/src/validate.ts:349-384 | That answer is the first incoherent line, and none exactly when all lines cohere. |
| Indentation.PythonIsValidIff | packages/apply/src/validate.ts:159-384 | A Python text is valid if and only if it is in the grammar and behind every line whose code ends in a colon there is a line that is not blank, the first of which has strictly more leading blanks and tabs. |
| Indentation.PythonRejection | packages/apply/src/validate.ts:349-384 | A Python text of the grammar that is rejected is rejected at the first line for which that fails, for having nothing behind it or for a body that is not deeper. |
| Indentation.HeaderIff | packages/apply/src/validate.ts:349-356 | The test for such a line looks at the last character before the comment, white space aside. |
| GrammarFacts.ScannerAcceptsGrammar | packages/apply/src/validate.ts:159-334 | The scanner accepts a text exactly when it belongs to the mutually recursive grammar of code, comments, strings, templates with holes, and matched brackets. |
| GrammarFacts.TreeIsUnique | packages/apply/src/validate.ts:159-334 | A text has at most one derivation in that grammar. |
| GrammarFacts.ValidIffGrammar | packages/apply/src/validate.ts:159-384 | For every language, the verdict is valid exactly when the text is in the grammar and, where indentation matters, every block is deeper than its header. |
| Framing.AlwaysInShape | packages/apply/src/validate.ts:175-320 | Over every text and after any number of rounds, the context stack is code with nested template holes and at most one string or template on top, with one hole bracket for each hole. |
| Prepend.PrependKeepsVerdict | packages/apply/src/validate.ts:159-384 | A valid text of whole lines put in front of any text leaves that text's verdict as it was, in every language: valid stays valid, and a rejection keeps its reason, with its lines moved down by the lines in front, less the escaped newlines stepped over in them for what the scanner reports. |
| Prepend.ScanPrepended | packages/apply/src/validate.ts:175-334 | The scanner's verdict on the whole is that on the second text, every line number in it moved by the same count. |
| LineReports.CounterIs | packages/apply/src/validate.ts:178-244 | After any number of rounds the line counter is the line of the position less the escaped newlines that were stepped over; it is right exactly when there was none. |
| LineReports.ReportedLineIs | packages/apply/src/validate.ts:159-341 | The line of a rejection is that of the place where the scanner stops, or where the bracket that is never closed was opened; it is right if and only if no escaped newline was stepped over before that place, and otherwise too small by their number. |
| LineReports.OpenedLineIs | packages/apply/src/validate.ts:284-303 | The line at which a mismatched bracket is said to be opened is that of the round that pushed it, with the same lag. |
| LineReports.NoneToSkip | packages/apply/src/validate.ts:195-199 | A text that holds no backslash before a newline has no such round, so its reported line is right. |
| LineReports.EscapedNewlineMisleads | packages/apply/src/validate.ts:195-199 | A text whose unmatched bracket on line 2 is reported on line 1. |
| Match.IndexLines | packages/apply/src/match.ts:38-52 | The loop builds the line index of the specification. |
| Match.LineNumberAt | packages/apply/src/match.ts:54-60 | The line of an offset is one more than the newlines before it. |
| Match.FindExact | packages/apply/src/match.ts:77-92 | The left-to-right search reports one match for each occurrence it comes upon, jumping over each. |
| Match.FindNormalized | packages/apply/src/match.ts:100-152 | The window search reports exactly the windows whose lines have the same leading indentation and agree up to the amount of white space behind it; blank lines agree with each other. |
| Match.FindIndentTolerant | packages/apply/src/match.ts:167-224 | The window search reports exactly the windows that agree, up to trailing white space, with the search lines moved from the indentation of the first one that is not blank to that of its file line; a line that does not start with it is moved whole. |
| Match.FindAnchored | packages/apply/src/match.ts:246-290 | The elided search compares lines after normalizing their white space, and reports the span between the one line equal to the first and the one equal to the last, or nothing when either is not unique, either is blank, or they are out of order. |
| Words.NormalizedIs | packages/apply/src/match.ts:62-65 | Normalizing white space leaves the words of a line, the longest runs without white space, with single blanks between them. |
| Words.SameNormalizedIff | packages/apply/src/match.ts:62-65 | Two lines are equal after it if and only if they have the same words. |
| Agreement.NormalizedIff | packages/apply/src/match.ts:100-152 | The white-space strategy reports a region if and only if it is a window whose lines each have the indentation and the words of their search line. |
| Agreement.IndentIff | packages/apply/src/match.ts:167-224 | The indentation strategy reports a region if and only if it is a window whose lines are the search lines moved from the indentation of the first that is not blank to that of its file line. |
| Agreement.AnchoredIff | packages/apply/src/match.ts:246-290 | The anchored strategy reports a region if and only if the block has three lines or more with an elision between the first and the last, neither of these is blank, and the region runs from the only file line with the words of the first to the only one with the words of the last, which is a later one; it is then the only region. |
| Agreement.ElisionIff | packages/apply/src/match.ts:226-235 | Which lines say that something was left out. |
| Agreement.MatchesAre | packages/apply/src/match.ts:312-321 | The matches of a block are those of the strictest strategy that has any. |
| Agreement.MatchesInOrder | packages/apply/src/match.ts:77-321 | They are listed in file order. |
| Match.FindMatch | packages/apply/src/match.ts:312-321 | The matches are those of the first strategy that has any. |
| MatchFacts.GreedyIsDisjoint | packages/apply/src/match.ts:77-92 | The exact search finds occurrences, in order, that do not overlap. |
| MatchFacts.GreedyIsMaximum | packages/apply/src/match.ts:77-92 | No set of disjoint occurrences is larger. |
| MatchFacts.GreedyCovers | packages/apply/src/match.ts:77-92 | Every occurrence overlaps one that is found. |
| MatchFacts.ExactMatchesAmbiguity | packages/apply/src/match.ts:77-92 | A block that occurs has more than one match exactly when two occurrences do not overlap, and its first match is the leftmost one. |
| MatchFacts.LinesPartition | packages/apply/src/match.ts:38-52 | The line index partitions the text: one line per newline and one more, each beginning where the one before ends. |
| MatchFacts.LinesRebuildText | packages/apply/src/match.ts:38-52 | Line texts and terminators put together are the text. |
| MatchFacts.LineTextsAreSplit | packages/apply/src/match.ts:38-52 | The line texts are what splitting at line ends gives. |
| MatchFacts.WindowSplits | packages/apply/src/match.ts:100-138 | The region of every line window splits into exactly the lines of the window. |
| MatchFacts.EveryMatchWellPlaced | packages/apply/src/match.ts:77-290 | Every match of every strategy lies in the file and reports the line it starts on. |
| Reindent.ReindentUndoesTolerance | packages/apply/src/match.ts:167-224 | Re-indenting the search block at a match gives a file line back, up to trailing white space, if and only if the indentations differ or the line is blank or starts with the anchor's indentation. |
| Reindent.ReindentedLine | packages/apply/src/match.ts:332-346 | Each line of a re-indented replacement is the line of the replacement, moved by the two indentations of the match. |
| Tolerance.ShiftedIsFoundIff | packages/apply/src/match.ts:167-224 | A window that is the search block after one uniform shift of its indentation is reported if and only if none of its lines is shallower than its first one that is not blank, and then with the indentations of the two first lines. |
| Tolerance.ToleranceFindsShifted | packages/apply/src/match.ts:167-224 | The same for the matches of any search block in any file. |
| Tolerance.JoinedBlockIsFound | packages/apply/src/match.ts:167-224 | The same for lines that are joined to a search block. |
| Tolerance.ShallowerIsMissed | packages/apply/src/match.ts:200-207 | A block that is the whole file after a uniform shift, and that no strategy finds. |
| Tolerance.FoundIsShiftedIff | packages/apply/src/match.ts:167-224 | A reported window is the search block after some uniform shift if and only if no line of the block is shallower than its first one. |
| Tolerance.FitsShiftedIff | packages/apply/src/match.ts:193-207 | A line that fits keeps its indentation relative to the anchor exactly when the search line is blank or starts with the anchor's indentation. |
| Tolerance.UnderindentedStays | packages/apply/src/match.ts:332-346 | A block whose only match is by indentation, with the indentation searched for, that is no uniform shift, and whose second line re-indenting does not give back. |
| Applier.ApplySearchReplace | packages/apply/src/applier.ts:60-132 | The loop over the edits is the left fold of single splices, with the widest strategy, or the first failure with its number. |
| Applier.ApplyEdit | packages/apply/src/applier.ts:218-317 | The tier loop returns the result of the first accepted tier, or the refusal that the failures of the attempted tiers amount to. |
| ApplierFacts.EditIs | packages/apply/src/applier.ts:60-132 | What one edit does, case by case: which edits are refused and why, that `occurrence` n means the n-th match in file order, and that the meant region, and nothing else, gives way to the replacement, each of its lines moved by the indentations of the match. |
| ApplierFacts.ReindentInserts | packages/apply/src/match.ts:332-346 | A replacement that is moved is split into lines, each of which is moved from the indentation searched for to the one found, and joined again; without indentations it stays as it is. |
| ApplierFacts.ExactBlock | packages/apply/src/applier.ts:82-117 | A block that occurs exactly is refused as ambiguous if and only if two occurrences do not overlap; otherwise its leftmost occurrence is replaced and nothing else changes. |
| ApplierFacts.SpliceIsLocal | packages/apply/src/applier.ts:74-129 | An applied edit replaces one region of the file and reports that region's line. |
| ApplierFacts.PrependIsSafe | packages/apply/src/applier.ts:74-80 | Prepending a valid block of whole lines never changes whether a file is valid. |
| ApplierFacts.SuccessIsChain | packages/apply/src/applier.ts:60-132 | A success has one location per edit, and each edit is spliced, at its location, into what the ones before it made. |
| ApplierFacts.StrategyIsWidest | packages/apply/src/applier.ts:348-362 | The reported strategy is the least strict of all locations. |
| ApplierFacts.FailureIsFirst | packages/apply/src/applier.ts:60-132 | A failure names the first edit that cannot be applied to what the ones before it made. |
| ApplierFacts.AppliedContentIsValid | packages/apply/src/applier.ts:255-290 | Content that is returned validates; without a parser it is in the grammar of its language. |
| ApplierFacts.FirstValidTierWins | packages/apply/src/applier.ts:255-290 | An edit is applied exactly when some tier's output validates, by the first such tier; the telemetry names it and its validator, and counts the tiers attempted, the edits and the bytes by which the size changes. |
| ApplierFacts.DiagnosisIs | packages/apply/src/applier.ts:248-253 | The diagnosis is the last failure that is not an unavailable tier, or the first failure when all are. |
| ApplierFacts.RefusalIsDiagnosed | packages/apply/src/applier.ts:255-316 | Tier, reason and message of a refusal all come from the diagnosis: they are those of the tier's own failure, or tell that its output does not validate, with the verdict; the count is that of the attempted tiers. |
| ApplierFacts.AttemptedIs | packages/apply/src/applier.ts:255-258 | Every configured tier is attempted but fast-apply without a provider. |
| Glob.CompileGlob | packages/plugin-sdk/src/glob.ts:40-66 | The loop emits the pieces of the specification, or its message for an empty pattern, an unclosed group or class. |
| GlobFacts.CompilationPreservesMeaning | packages/plugin-sdk/src/glob.ts:40-129 | For a pattern without braces and classes whose `**` are whole segments, the emitted expression accepts a path without line ends exactly when the segment-by-segment matcher does. |
| GlobFacts.StarStarSkips | packages/plugin-sdk/src/glob.ts:117-129 | For that matcher, a `**` that is not last stands for zero or more non-empty segments. |
| GlobFacts.RunIsIn | packages/plugin-sdk/src/glob.ts:154-165 | A backtracking matcher on the emitted pieces decides the language of the emitted expression. |
| Semver.ComparePrerelease | packages/plugin-sdk/src/semver.ts:93-112 | The loop over identifiers returns the order of the specification. |
| Semver.CompareIsTotal | packages/plugin-sdk/src/semver.ts:86-122 | Comparison is antisymmetric and zero only on equal versions. |
| Semver.CompareIsTransitive | packages/plugin-sdk/src/semver.ts:86-122 | Comparison is transitive. |
| Semver.CompareIsPrecedence | packages/plugin-sdk/src/semver.ts:86-122 | It is the precedence of section 11 of Semantic Versioning 2.0.0. |
| Semver.CaretMeans | packages/plugin-sdk/src/semver.ts:188-193 | `^` is exactly: at least the base, same leftmost non-zero component; a prerelease only of the base's own triple, which then is a prerelease. |
| Semver.TildeMeans | packages/plugin-sdk/src/semver.ts:195-197 | `~` is exactly: at least the base, same major and minor; prereleases as for `^`. |
| Semver.AlternativeIsConvex | packages/plugin-sdk/src/semver.ts:199-213 | Among releases an alternative accepts everything between two versions it accepts. |
| Semver.PrereleaseIsNamed | packages/plugin-sdk/src/semver.ts:239-298 | A prerelease satisfies a range if and only if the whole range is understood and some alternative holds of which a token names a prerelease of its own triple; `*` and the bounds of `^` and `~` never count. |
| Semver.ResolveAlternative | packages/plugin-sdk/src/semver.ts:265-288 | The loop over tokens collects the comparators of an alternative, or finds the first malformed token. |
| Semver.Evaluate | packages/plugin-sdk/src/semver.ts:239-257 | The loop over alternatives returns the outcome of the specification. |
| Semver.EvaluateMeans | packages/plugin-sdk/src/semver.ts:239-257 | A range is not understood exactly when a malformed alternative stands before any `*` that accepts the version; otherwise it is satisfied exactly when some alternative holds. |
| Semver.ComparatorMeans | packages/plugin-sdk/src/semver.ts:199-213 | A comparator asks of a version what its operator says by the precedence of section 11. |
| Semver.AlternativeMeans | packages/plugin-sdk/src/semver.ts:239-298 | An alternative is understood if and only if it is a lone `*` or one readable token or more; it accepts a version if and only if all its tokens admit it and, for a prerelease, one of them names it. |
| Semver.RangeMeans | packages/plugin-sdk/src/semver.ts:239-298 | The outcome of a whole range, by its tokens. |
| Redact.ReplaceAllStep | packages/mcp/src/redact.ts:79-82 | Replacing changes nothing in a text without the needle; in another it replaces the first occurrence, leaves what stands before it, and goes on behind it. |
| Redact.SecretRegistry.constructor | packages/mcp/src/redact.ts:43-54 | The registry holds exactly the configured values of six characters and more, once each, longest first. |
| Redact.Collect | packages/mcp/src/redact.ts:47-49 | The loop over a block adds exactly its values that are long enough, and keeps all of them distinct and longest first. |
| Redact.SecretRegistry.Redact | packages/mcp/src/redact.ts:68-76 | The loop replaces every value and, where it differs, its encoded form. |
| RedactFacts.TouchesIff | packages/mcp/src/redact.ts:79-82 | The overlap test, which needs the needle only, holds exactly when an occurrence can reach into a replacement in some surroundings. |
| RedactFacts.RedactionIsComplete | packages/mcp/src/redact.ts:43-82 | No secret that passes the test is left, nor such an encoded form, whatever the others are; when all pass, a second pass changes nothing. |
| RedactFacts.SecretIsSafeIff | packages/mcp/src/redact.ts:43-82 | Every registry that holds a secret removes it from every text if and only if it passes the test; otherwise another secret of the same length and a text are given that show it. |
| RedactFacts.NoneIsLeft | packages/mcp/src/redact.ts:68-76 | A needle that passes is removed whatever the others are and whatever order they stand in. |
| RedactFacts.ReplacingKeepsAbsent | packages/mcp/src/redact.ts:79-82 | Replacing any other needle never brings back one that passes. |
| RedactFacts.RemovedIff | packages/mcp/src/redact.ts:79-82 | Replacing a needle removes it from every text if and only if at no overlap with a replacement it agrees with that and, where it begins before it, is first found there. |
| RedactFacts.TouchingCanBeRemoved | packages/mcp/src/redact.ts:79-82 | The two conditions differ: a needle that fails the test and yet is always removed by itself. |
| RedactFacts.BracketsCanBeApart | packages/mcp/src/redact.ts:79-82 | Brackets alone do not fail a secret: one with both passes the test. |
| RedactFacts.BracketFreeIsExact | packages/mcp/src/redact.ts:79-82 | For a needle without brackets, replacing removes it from every text if and only if it is no part of the word between the brackets. |
| RedactFacts.SecretStays | packages/mcp/src/redact.ts:43-82 | A secret that can stay is left in some text by the registry that holds it alone, if its encoded form is itself or has a character of its own. |
| RedactFacts.BracketedSecretStays | packages/mcp/src/redact.ts:43-82 | A registry with one secret of six characters, and a text that still shows it. |
| Fenced.RenderFencedEdits | bench/harness/src/polyglot.ts:46-79 | The loops over edits and markers return the printed text, or the first reason to refuse it. |
| Fenced.ParseFencedEdits | bench/harness/src/polyglot.ts:97-152 | The cursor through the lines returns the parse of the specification, with the same error at each place. |
| Fenced.RenderAccepts | bench/harness/src/polyglot.ts:46-63 | Printing succeeds exactly for a path and edits of which none holds a marker line. |
| Fenced.RoundTrip | bench/harness/src/polyglot.ts:46-152 | Printing an accepted edit for a trimmed one-line path and parsing it back gives the same path, search and replace; several edits are refused as trailing content. |
| Fenced.ParsedIff | bench/harness/src/polyglot.ts:97-152 | Lines parse to a path and an edit if and only if they are one block: blank lines, the fence with the path, the search marker, the search text up to the first replace marker, the replacement up to the first end marker, the closing fence, and blank lines. |
| Truncate.TruncatedIsEnds | packages/core/src/truncate.ts:65-99 | A truncated text is a head, the marker line and a tail. The budget less the marker line is the head's, or the tail's, or a third and two thirds for both; each end is all of its budget, or is cut at the newline that leaves most of it. They do not overlap, and the result is within the budget unless the marker line alone is not. |
| Truncate.HeadIs | packages/core/src/truncate.ts:101-106 | The head is all of its budget if no newline stands in it past the first character, and otherwise what stands before the last one. |
| Truncate.TailIs | packages/core/src/truncate.ts:108-114 | The tail is all of its budget if no newline stands in it before the last character, and otherwise what stands behind the first one. |
| Truncate.HeadOnce | packages/core/src/truncate.ts:101-106 | That describes one head only. |
| Truncate.TailOnce | packages/core/src/truncate.ts:108-114 | That describes one tail only. |
| Truncate.ContentIsShared | packages/core/src/truncate.ts:130-174 | The blocks of a list over the budget share it from the first to the last: an image is kept if it fits, a text is kept, shortened to what is left, or dropped when nothing is left; a note at the end counts the dropped images. |
| Truncate.TruncateContent | packages/core/src/truncate.ts:130-174 | The loop over blocks returns the blocks and the report of the specification. |
| Truncate.TruncatedContentIs | packages/core/src/truncate.ts:130-174 | For every budget, a list exceeds it by at most one marker line and one omission note; truncation is reported, with the true sizes, exactly when the input was over it and was not the empty list under a negative one; every image is kept or counted as dropped. |
| Truncate.NothingIsNotReported | packages/core/src/truncate.ts:130-174 | That one case: a negative budget is exceeded by nothing, and this is not reported. |
| Truncate.ImagesAreWhole | packages/core/src/truncate.ts:146-156 | An image that is kept is one of the input, uncut. |
| Truncate.ContinuationStore.Register | packages/core/src/truncate.ts:204-212 | Registering puts the text in and evicts the oldest until both bounds hold, or changes nothing when it is too large. |
| Truncate.ContinuationStore.Resolve | packages/core/src/truncate.ts:214-216 | Resolving answers a held entry that carries the token, or nothing exactly when none does, and changes nothing. |
| Truncate.ContinuationStore.Clear | packages/core/src/truncate.ts:222-225 | Clearing leaves an empty store with a counter of zero. |
| Truncate.ContinuationStore.EvictOldest | packages/core/src/truncate.ts:227-235 | The eviction loop ends, at the state of the specification. |
| Truncate.HoldsLongestSuffix | packages/core/src/truncate.ts:193-236 | Over every run with fresh tokens the store holds exactly the longest suffix of the accepted registrations since the last clear that fits both bounds, and its counter is the sum of their sizes. |
| Truncate.LongestFittingIs | packages/core/src/truncate.ts:227-235 | That suffix fits, and no longer one does. |
| Truncate.IssuedTokenResolves | packages/core/src/truncate.ts:204-216 | A token just issued resolves to its text. |
| Cost.AccumulatedIs | packages/core/src/cost.ts:63-75 | Counters of accumulated usage are the sums of the counters; the hit rate is that of the sums. |
| Cost.PriceIs | packages/core/src/cost.ts:43-54 | A million times the price is the tokens of each kind at their price; those of reasoning are not counted again. |
| Cost.SpendAdds | packages/core/src/cost.ts:43-54 | The price of a sum of usages is the sum of their prices. |
| Budget.BudgetTracker.Check | packages/core/src/budget.ts:95-144 | The answer is the first ceiling reached in the fixed order, with its stop reason, or none if none is. |
| Budget.FirstReachedUnique | packages/core/src/budget.ts:95-144 | That describes one answer only. |
| Budget.BudgetTracker.RemainingWallClockMs | packages/core/src/budget.ts:147-150 | What is left is zero exactly when the clock ceiling is reached, and otherwise leads exactly to it. |
| Budget.ToolLimitsFor | packages/core/src/turn.ts:369-373 | The limits are those configured, with the timeout lowered to what the turn has left when they are computed. |
| Budget.NarrowedIsTightest | packages/core/src/turn.ts:327-373 | For a call that starts when the limits are computed, the narrowed timeout is both its own ceiling and the turn's; one that starts later is sure to end by the turn's ceiling if and only if its whole timeout fits from there. |
| Budget.StepEndsInTimeIff | packages/core/src/turn.ts:327-373 | The calls of a step, one behind the other and each within the timeout, are sure to end by the turn's ceiling if and only if as many timeouts fit. |
| Budget.SecondCallIsLate | packages/core/src/turn.ts:327-373 | Two calls within their timeouts, of which the second ends behind the ceiling. |
| Events.EventLog.SequenceIsContiguous | packages/core/src/events.ts:65-73 | The loop with a map answers whether every event carries the number of events of its turn before it. |
| Events.TurnEmitter.Emit | packages/core/src/events.ts:93-97 | An event is appended with the next number of its turn. |
| Events.TurnEmitter.Delta | packages/core/src/events.ts:109-114 | An empty delta takes no number. |
| Events.ContiguousIffDistinct | packages/core/src/events.ts:65-106 | Emitters sharing a log leave it contiguous in every order of emissions if and only if their turn ids are distinct. |
| Session.Session.HistoryIsLinear | packages/core/src/session.ts:140-153 | The index-skipping loop answers whether every assistant message is followed, in order, by a tool message for each of its calls. |
| Session.Session.Append | packages/core/src/session.ts:88-90 | Appending leaves the old history in front. |
| Session.Session.Compact | packages/core/src/session.ts:104-111 | Compaction leaves one summary message, a linear history. |
| Session.AnsweredIsLinear | packages/core/src/session.ts:140-153 | An assistant message with tool messages behind it is linear exactly when those answer its calls in order. |
| Session.LinearIffParts | packages/core/src/session.ts:140-153 | Behind a history whose calls have room for their answers, linearity can be told part by part. |
| Hooks.HookBus.FireToolPre | packages/core/src/hooks.ts:177-218 | The loop with chained rewrites returns the verdict of the specification. |
| Hooks.ToolPreIs | packages/core/src/hooks.ts:177-218 | Each hook is asked about the arguments that the one before lets on, its own or those it was shown; the first that denies, fails or is slow denies the call for that reason, and behind all of them the call goes on with the last arguments, which are its own unless a hook has rewritten them. |
| Hooks.ToolPreFailsClosed | packages/core/src/hooks.ts:177-218 | A call goes on exactly when every hook, shown the arguments as rewritten before it, lets it; a timeout or an error denies; the reason is the first denial's, and the arguments are the last rewrite's. |
| Hooks.OneDenialIsEnough | packages/core/src/hooks.ts:177-218 | A hook that always denies or never answers stops every call, wherever it stands. |
| Hooks.HookBus.FireToolPost | packages/core/src/hooks.ts:221-234 | The loop keeps the last replacement, and a failing hook leaves the result as it is. |
| Hooks.ToolPostIs | packages/core/src/hooks.ts:221-234 | Each hook is asked about the result as the ones before it leave it, and replaces it or, if it fails or is slow, leaves it. |
| Hooks.ToolPostKeepsId | packages/core/src/hooks.ts:221-234 | If every replacement keeps the call's id, so does the result of them all. |
| Hooks.HookBus.FireTurnStart | packages/core/src/hooks.ts:155-168 | The loop returns what the specification injects. |
| Hooks.TurnStartIs | packages/core/src/hooks.ts:155-168 | What is injected is what the hooks that answered inject, one behind the other. |
| Permissions.MatchCommandRule | packages/core/src/permissions.ts:551-561 | The loop returns the specification's best rule. |
| Permissions.BestRuleIs | packages/core/src/permissions.ts:551-561 | It is a matching rule with the longest prefix, if any rule matches. |
| Permissions.RuleOrderIrrelevant | packages/core/src/permissions.ts:551-561 | With distinct prefixes the rule chosen does not depend on the order of the rules. |
| Permissions.ForbidBeatsEveryMode | packages/core/src/permissions.ts:343-373 | An effect is forbidden exactly when it is a command whose best rule says so, in every mode and under every policy. |
| Permissions.WideningKeepsAllowed | packages/core/src/permissions.ts:330-456 | What was allowed without asking is allowed in a wider sandbox mode if and only if it is not a command without a rule that the broker contains in the narrower mode only. |
| Permissions.WideningIsSafeIff | packages/core/src/permissions.ts:179-186 | Widening takes nothing away if and only if commands stay contained, or the wider mode is full access, or a rule decides every command. |
| Permissions.WideningCanLose | packages/core/src/permissions.ts:179-186 | A broker that contains commands in read-only mode only, and a command that the wider mode asks about. |
| Permissions.PermissionGate.Authorize | packages/core/src/permissions.ts:222-243 | One call of the gate rules as specified and leaves the session memory that the ruling says. |
| Permissions.PermissionGate.SeekApproval | packages/core/src/permissions.ts:266-303 | What is outstanding is refused under `never` or without a channel, and otherwise asked. |
| Permissions.PermissionGate.ApplyDecision | packages/core/src/permissions.ts:305-327 | The user's answer grants or refuses, and only allow-session is remembered, for what was asked. |
| GateFacts.EffectIs | packages/core/src/permissions.ts:330-456 | An effect is allowed if and only if it is permitted on its own terms: a write in full access, or in workspace-write and within the writable roots, which are the workspace root when there are none; a read in full access or within the workspace root and the writable roots; a host in full access or on the list; a command by a longest matching rule, or without a rule when it is contained or in full access. It is forbidden if and only if it is a command that a longest matching rule forbids. |
| GateFacts.RulingIs | packages/core/src/permissions.ts:222-327 | The whole ruling on any request, told by those terms: a prohibited effect refuses it for the first rule that does; when there is nothing to ask it is granted; and otherwise it is refused under `never` or without a channel, or the user is asked about exactly the effects that do not pass, in order, and the answer decides. |
| GateFacts.GrantedUnaskedIff | packages/core/src/permissions.ts:222-327 | Over every run of the gate, a request is granted without asking anybody if and only if each of its effects is permitted on its own terms, in a policy that trusts those, or has a signature that was remembered at first or allowed for the session since, and none is prohibited. |
| GateFacts.GrantMeansApproved | packages/core/src/permissions.ts:222-327 | Over every run, it is granted if and only if no effect is prohibited, and each passes in that way or the user, who can be asked, says yes. |
| Permissions.MemoryIs | packages/core/src/permissions.ts:305-316 | The session memory is what was there at first and what the user allowed for the session, and nothing else. |
| GateFacts.NeverRefuses | packages/core/src/permissions.ts:266-289 | Under `never` nobody is asked, nothing new is remembered, and a request is granted if and only if each of its effects passes. |
| GateFacts.SignatureIff | packages/core/src/permissions.ts:563-575 | Two effects share a signature if and only if they are of one kind and have the same command text, the same path but for slashes at its end, or the same host. |
| GateFacts.PlainCommandsDiffer | packages/core/src/permissions.ts:563-575 | Commands whose words hold no blank share one if and only if they are the same. |
| GateFacts.WordsRunTogether | packages/core/src/permissions.ts:563-575 | Two different commands that share one. |
| GateFacts.OperationIsAuthorized | packages/core/src/permissions.ts:463-532 | A grant lets its tool do exactly what is like a declared effect of the same kind; of a grant given in a run of the gate, no rule prohibits that effect, and it passes or the user said yes. |
| Dispatch.Engine.DispatchToolCall | packages/core/src/dispatch.ts:82-227 | The stages run in order on the gate and the store, and leave both as specified, with what a subagent does to them while the tool runs. |
| Dispatch.OutcomeIs | packages/core/src/dispatch.ts:82-227 | What a call comes to, stage by stage: an unknown tool, refused arguments, unknown effects and a tool that throws fail with the call's id, a text and no emissions; a hook or the gate stops it for their reason; and otherwise the post hooks are shown what the tool reports, cut to the budget from both ends, and its emissions are kept. |
| Dispatch.StoppedFairly | packages/core/src/dispatch.ts:99-161 | A stopped call ends the turn if and only if the user aborted it, and it was a hook that stopped it exactly when the reason is a hook's. |
| Dispatch.RunsOnlyWhenAuthorized | packages/core/src/dispatch.ts:82-181 | A tool runs if and only if it is registered, no hook denies, the schema accepts the arguments the hooks left, and the gate grants the effects declared for those. |
| Dispatch.AskedOnlyBehindHooks | packages/core/src/dispatch.ts:99-161 | The user is asked only about a call that no hook denies and whose arguments are valid; a call that does not run leaves the store alone and, if it asks nobody, the memory too. |
| Dispatch.CallIsGateRun | packages/core/src/dispatch.ts:149-181 | The memory any call leaves is that of a run of the gate over its own request and, behind a grant, those of its subagent. |
| Dispatch.CallIsStoreRun | packages/core/src/dispatch.ts:175-201 | The store any call leaves is that of a run over what its subagent registers and then the rest of its own result. |
| Dispatch.ExecutedWithoutRunning | packages/core/src/dispatch.ts:86-147 | When a call is reported as executed although its tool did not run. |
| Dispatch.ResultKeepsCallId | packages/core/src/dispatch.ts:82-227 | An executed call answers with its id if the post hooks together keep the ids of the results they are shown. |
| Dispatch.EachKeepsIds | packages/core/src/hooks.ts:221-234 | The post hooks together keep those ids when each of them keeps the id of every result. |
| Dispatch.RawResultIs | packages/core/src/dispatch.ts:187-216 | Before the post hooks, the truncation fields of a result agree with its marker and tell the true sizes, exactly when the tool produced more than the budget. |
| Dispatch.ContinuationIsRedeemable | packages/core/src/dispatch.ts:187-216 | A continuation token is issued exactly for a cut result whose full text the store can hold, and the store then resolves it to that text, whatever a subagent registered before. |
| Turn.ConsumeStream | packages/core/src/turn.ts:509-538 | The loop over the chunks collects text, calls and the last finish, and emits one delta per non-empty text, also when the stream then fails. |
| TurnFacts.StreamedIsSeen | packages/core/src/turn.ts:509-538 | The text that goes into the history is the text of the deltas that were emitted. |
| Turn.ApplyEmissions | packages/core/src/turn.ts:466-488 | Emissions become events in order, and the last to-do list becomes the session's. |
| Turn.RunToolCalls | packages/core/src/turn.ts:375-457 | The loop over the calls leaves messages, events, to-dos, gate and store as specified call by call, with synthetic answers behind an abort or a cancellation. |
| Turn.Machine.StopBefore | packages/core/src/turn.ts:226-235 | Cancellation comes first, then the ceilings. |
| Turn.Machine.RunStep | packages/core/src/turn.ts:264-347 | One step leaves history, events, usage, step count, gate and store as specified, for each way it can end. |
| Turn.Machine.Loop | packages/core/src/turn.ts:237-255 | The loop ends where the specification of the whole run ends. |
| Turn.RunTurn | packages/core/src/turn.ts:117-210 | A turn is refused untouched exactly when its spend ceiling cannot be computed; otherwise it appends the messages and emits the events of its run, adds its usage to the session and counts the turn. |
| TurnHistory.TurnIsTold | packages/core/src/turn.ts:117-499 | Every turn, told request by request by what the model streams, what the hooks give, the signal, the clock and the events. The history gets what the hooks inject and the user asks; then, for each request that is kept, what the model said and asked for and one answer to each call, in order: with the id, the success and the content of its finish event, or a failure with a text for a denied one or one that was not run, which are those behind the signal or an abort. The usage counted is the sum so far. A request is made exactly when the signal is down and steps, tokens, time and money are left, the turn stops for the reason that this or its last request gives, and the to-dos are the last that were emitted. |
| TurnHistory.RecordsTold | packages/core/src/turn.ts:375-457 | The messages of a tool phase answer its calls in order as their events report them, and those without an event as not run. |
| TurnHistory.CutShortIs | packages/core/src/turn.ts:388-412 | A call is dispatched if and only if the signal is down and no call before it was left out or aborted by the user. |
| TurnHistory.EmissionsAreShown | packages/core/src/turn.ts:466-488 | The events of a tool phase show everything its tools emitted, in order, and nothing else. |
| TurnHistory.TodosAreLast | packages/core/src/turn.ts:466-488 | The to-dos a session is left with are the last list among the events. |
| EngineFacts.PhaseIsDispatched | packages/core/src/turn.ts:375-457 | Each call of a phase that is not left out comes to what the dispatcher makes of it. |
| TurnFacts.HistoryIsLinearIff | packages/core/src/turn.ts:264-457 | A linear history is linear after a turn if and only if every appended tool result carries the id of its call, whatever the world does. |
| TurnFacts.HistoryStaysLinear | packages/core/src/turn.ts:264-457 | It always is when the post hooks together keep ids: every assistant message is followed by exactly one answer per call, synthetic ones included. |
| OneCall.LinearForAllIff | packages/core/src/turn.ts:264-457 | Every turn keeps every linear history linear if and only if the post hooks, composed, keep the id of every result that they can be shown. |
| OneCall.RenamingHookBreaks | packages/core/src/hooks.ts:221-234 | With a hook that changes the id, a turn of one call leaves an assistant message and a tool message with another id, which is not linear. |
| OneCall.UnknownIsStarted | packages/core/src/turn.ts:449-453 | A call of an unknown tool is reported as started and finished and did not run. |
| TurnFacts.DispatchedIsPrefix | packages/core/src/turn.ts:388-412 | The calls that are dispatched are a prefix: once one is not run, no later one is, and the phase ends the turn. |
| TurnTrace.TraceIsWellFormed | packages/core/src/turn.ts:154-200 | The events of every turn satisfy a reader: started first, completed last, each once; requests counted one by one; a started call is followed by its emissions and its finish, and a denied one is not started; where the hooks keep ids, a call is finished with its own. |
| TurnTrace.CallsAreReported | packages/core/src/turn.ts:375-457 | The calls that the events of a step report as started or denied are, in order and once each, a prefix of those the model asked for, exactly the dispatched ones; only the last step of an ended turn can leave calls out. |
| TurnFacts.TurnIsContiguous | packages/core/src/events.ts:65-106 | In a log that does not know the turn, its events are numbered without a gap. |
| TurnFacts.StepsAreBounded | packages/core/src/turn.ts:237-304 | With a step ceiling a turn makes at most that many requests, ends within one round more, and stops for that reason only after exactly that many. |
| TurnFacts.RequestsAreWithinBudget | packages/core/src/turn.ts:226-255 | A request is made exactly when the turn goes on, the signal is not up, and no ceiling of any kind is reached. |
| TurnFacts.TurnUsageIsSum | packages/core/src/turn.ts:293-299 | The usage of a turn is, counter by counter, the sum of what its streams reported, with the hit rate of those sums. |
| EngineFacts.TurnMemoryIs | packages/core/src/permissions.ts:305-316 | A turn leaves in the session memory what was there and what the user, asked about a call of the turn or of one of its subagents, allowed for the session, and nothing else. |
| EngineFacts.TurnStoreIs | packages/core/src/truncate.ts:193-236 | Over turns too, the store holds the longest fitting suffix of all that was accepted before and registered by the calls of the turn and of its subagents. |
| TurnFacts.SessionUsageIsSum | packages/core/src/session.ts:113-115 | So is the usage of a session behind any sequence of turns, over the streams of them all, however they ended. |

## Left out

- Characters stand for UTF-16 code units, and one character is one byte; a cut inside a UTF-8 sequence is not modelled.
- Scanner.ValidateStructure: a language named like a property that every JavaScript object inherits, such as `constructor` or `__proto__`, is answered as unknown; the table lookup at `packages/apply/src/validate.ts:132-134` finds the inherited value, which has no `lineComments`, so that the source throws on any text with a character other than a newline.
- Tree-sitter, the fast-apply provider and byte lengths are functions that the applier is given; detecting a language from a path is not modelled.
- The wording of messages: refusals, denials and failures carry the facts their messages mention; `message` of a turn's outcome and its concatenated text are not modelled.
- Glob patterns with braces or classes compile as in the source, but the meaning of the result is not described, nor are expressions that the JavaScript engine rejects.
- Semver: parsing versions and range tokens from text, and numbers beyond the exact range of a double.
- Redact: `encodeURIComponent` is an argument; `RedactFacts.SecretIsSafeIff` uses of it that it shortens nothing and leaves lower-case letters alone. `describeEnvKeys` is not modelled.
- Hooks: timers are one outcome of asking a hook; disposing of a hook and `fireTurnEnd`, which changes nothing, are not modelled.
- Permissions: whether a path lies within roots is an argument of each request; the file system, the broker and the text of an approval request are not modelled, nor an approval channel that throws.
- Dispatch: durations, and what a tool does with its context beyond its declared effects and the requests and registrations of a subagent.
- The turn of a subagent: its history, its usage and its budget are its own, and only what its calls put to the shared gate and store, in order, is modelled; its events go to the same log under another turn id, as in `Events.ContiguousIffDistinct`.
- Turn.RunTurn: the context assembler and cache epochs (the epoch number is an argument), providers without native tool calling, and the names of sessions; nobody else writes to the event log during the turn.
- Cost.SpendAdds: prices and spend are exact reals, where the source uses floating point and the sum can differ in rounding.
- Budget: ceilings are any integers or reals; the schema that keeps them positive is not modelled.
- Manifests, settings, the subprocess broker, MCP transports, the command line and the VS Code extension.
