/** What every turn guarantees, whatever the world answers (packages/core/src/turn.ts). */
module TurnFacts {
  import opened Text
  import opened Cost
  import opened Budget
  import opened Events
  import opened Session
  import opened Turn
  import T = Truncate
  import H = Hooks
  import D = Dispatch

  // ----- one round -----

  /** A request was made in state `s`, its record is `r`, and it led to `q`. */
  predicate Requested(request: TurnRequest, s: TurnState, round: Round, r: StepRecord, q: TurnState) {
    && Preflight(request, s, round).None?
    && q.records == s.records + [r] && r.chunks == round.answer.chunks
    && (if r.FailedStep? then q.usage == s.usage && q.steps == s.steps && q.stop == Some(Error)
        else
          && q.usage == WithUsage(s.usage, Collected(r.chunks, |r.chunks|)) && q.steps == s.steps + 1
          && r.usage == q.usage && r.steps == q.steps)
    && (r.CancelledStep? ==> q.stop == Some(Cancelled))
    && (r.SpokenStep? ==> q.stop == Some(EndTurn) || q.stop == Some(Error))
    && (r.ToolStep? ==> q.stop == None || q.stop == Some(Refused) || q.stop == Some(Cancelled))
  }

  /** What the tools of a round came to. */
  predicate ToolsFollow(request: TurnRequest, setup: D.Setup, s: TurnState, round: Round, r: StepRecord, q: TurnState) {
    var calls := Collected(r.chunks, |r.chunks|).calls;
    match r
    case ToolStep(_, _, _, records) =>
      var p := PhaseOf(request, setup, s.engine, round, calls);
      calls != [] && records == p.records && q.stop == PhaseStop(p)
    case SpokenStep(_, _, _) => calls == []
    case _ => true
  }

  /** A round either stops the turn and changes nothing else, or makes one request. */
  lemma RoundIs(request: TurnRequest, setup: D.Setup, s: TurnState, round: Round) returns (r: Option<StepRecord>)
    ensures var q := RoundTaken(request, setup, s, round);
            match r
            case None => Preflight(request, s, round).Some? && q == s.(stop := Preflight(request, s, round))
            case Some(r) => Requested(request, s, round, r, q) && ToolsFollow(request, setup, s, round, r, q)
  {
    var q := RoundTaken(request, setup, s, round);
    if Preflight(request, s, round).Some? {
      r := None;
    } else {
      r := Some(q.records[|s.records|]);
    }
  }

  // ----- what was streamed -----

  function DeltaText(events: seq<Payload>): string {
    if events == [] then ""
    else
      var last := events[|events| - 1];
      DeltaText(events[..|events| - 1]) + (if last.TextDelta? then last.text else "")
  }

  /** The text that goes into the history is what a reader of the deltas has seen. */
  lemma {:induction false} StreamedIsSeen(chunks: seq<Chunk>, n: nat)
    requires n <= |chunks|
    ensures Collected(chunks, n).text == DeltaText(Deltas(chunks, n))
  {
    if n > 0 {
      StreamedIsSeen(chunks, n - 1);
      ChunkSeen(Collected(chunks, n - 1), Deltas(chunks, n - 1), chunks[n - 1]);
    }
  }

  lemma ChunkSeen(s: Streamed, events: seq<Payload>, chunk: Chunk)
    requires s.text == DeltaText(events)
    ensures Collect(s, chunk).text == DeltaText(events + ChunkEvents(chunk))
  {
    match chunk {
      case TextChunk(text) => TextSeen(events, text);
      case _ => assert events + [] == events;
    }
  }

  lemma TextSeen(events: seq<Payload>, text: string)
    ensures DeltaText(events + DeltaOf(text)) == DeltaText(events) + text
  {
    if text == "" {
      assert events + [] == events && DeltaText(events) + "" == DeltaText(events);
    } else {
      assert (events + [TextDelta(text)])[..|events|] == events;
    }
  }

  // ----- answers to calls -----

  /** The record is of this call, and an executed call answers with its id. */
  predicate Faithful(r: CallRecord, call: ToolCall) {
    r.call == call && (r.Called? && r.outcome.Executed? ==> r.outcome.result.callId == call.callId)
  }

  predicate AllFaithful(records: seq<CallRecord>, calls: seq<ToolCall>) {
    |records| == |calls| &&
    (records == [] ||
     (AllFaithful(records[..|records| - 1], calls[..|calls| - 1]) && Faithful(records[|records| - 1], calls[|calls| - 1])))
  }

  /** The `tool.post` hooks keep the ids of the calls. */
  ghost predicate HooksKeepIds(setup: D.Setup, answers: nat -> CallAnswer) {
    forall i :: D.KeepsShownIds(setup, answers(i).world.post)
  }

  lemma TakenIsFaithful(p: Phase, setup: D.Setup, call: ToolCall, limits: ToolLimits, a: CallAnswer)
    requires D.KeepsShownIds(setup, a.world.post)
    ensures Faithful(CallTaken(p, setup, call, limits, a).record, call)
  {
    D.ResultKeepsCallId(setup, call, limits, a.world, p.engine.allowed, p.engine.store);
  }

  lemma {:induction false} PhaseIsFaithful(setup: D.Setup, calls: seq<ToolCall>, limits: ToolLimits, answers: nat -> CallAnswer, engine: EngineState, n: nat)
    requires n <= |calls| && HooksKeepIds(setup, answers)
    ensures AllFaithful(PhaseUpTo(setup, calls, limits, answers, engine, n).records, calls[..n])
  {
    if n > 0 {
      PhaseIsFaithful(setup, calls, limits, answers, engine, n - 1);
      var p := PhaseUpTo(setup, calls, limits, answers, engine, n - 1);
      TakenIsFaithful(p, setup, calls[n - 1], limits, answers(n - 1));
      FaithfulGrows(p.records, calls, n, CallTaken(p, setup, calls[n - 1], limits, answers(n - 1)).record);
    }
  }

  lemma FaithfulGrows(records: seq<CallRecord>, calls: seq<ToolCall>, n: nat, r: CallRecord)
    requires 0 < n <= |calls| && AllFaithful(records, calls[..n - 1]) && Faithful(r, calls[n - 1])
    ensures AllFaithful(records + [r], calls[..n])
  {
    assert (records + [r])[..|records|] == records && calls[..n][..n - 1] == calls[..n - 1];
  }

  /** One record for each call, in order. */
  predicate AllOf(records: seq<CallRecord>, calls: seq<ToolCall>) {
    |records| == |calls| &&
    (records == [] || (AllOf(records[..|records| - 1], calls[..|calls| - 1]) && records[|records| - 1].call == calls[|calls| - 1]))
  }

  lemma {:induction false} PhaseIsOf(setup: D.Setup, calls: seq<ToolCall>, limits: ToolLimits, answers: nat -> CallAnswer, engine: EngineState, n: nat)
    requires n <= |calls|
    ensures AllOf(PhaseUpTo(setup, calls, limits, answers, engine, n).records, calls[..n])
  {
    if n > 0 {
      PhaseIsOf(setup, calls, limits, answers, engine, n - 1);
      var p := PhaseUpTo(setup, calls, limits, answers, engine, n - 1);
      OfGrows(p.records, calls, n, CallTaken(p, setup, calls[n - 1], limits, answers(n - 1)).record);
    }
  }

  lemma OfGrows(records: seq<CallRecord>, calls: seq<ToolCall>, n: nat, r: CallRecord)
    requires 0 < n <= |calls| && AllOf(records, calls[..n - 1]) && r.call == calls[n - 1]
    ensures AllOf(records + [r], calls[..n])
  {
    assert (records + [r])[..|records|] == records && calls[..n][..n - 1] == calls[..n - 1];
  }

  /** The tool messages answer the calls exactly when the results kept their ids. */
  lemma {:induction false} AnswersIffFaithful(records: seq<CallRecord>, calls: seq<ToolCall>)
    requires AllOf(records, calls)
    ensures AnswersAll(calls, MessagesOf(records)) <==> AllFaithful(records, calls)
    ensures |MessagesOf(records)| == |calls| && forall m <- MessagesOf(records) :: m.ToolMessage?
  {
    if records != [] {
      var n := |records| - 1;
      AnswersIffFaithful(records[..n], calls[..n]);
      AnswersGrow(calls, MessagesOf(records[..n]), MessageOf(records[n]));
    }
  }

  lemma AnswersGrow(calls: seq<ToolCall>, answers: seq<Message>, last: Message)
    requires |calls| == |answers| + 1
    ensures AnswersAll(calls, answers + [last])
       <==> AnswersAll(calls[..|answers|], answers) && last.ToolMessage? && last.callId == calls[|answers|].callId
  {
    if AnswersAll(calls, answers + [last]) {
      assert forall k :: 0 <= k < |answers| ==> (answers + [last])[k] == answers[k];
      assert (answers + [last])[|answers|] == last;
    }
  }

  /** No call was dispatched behind one that was not run. */
  predicate RanFirst(records: seq<CallRecord>) {
    |records| <= 1 ||
    (RanFirst(records[..|records| - 1]) && (records[|records| - 2].NotRun? ==> records[|records| - 1].NotRun?))
  }

  lemma {:induction false} RanFirstIs(records: seq<CallRecord>, i: nat, j: nat)
    requires RanFirst(records) && i <= j < |records| && records[i].NotRun?
    ensures records[j].NotRun?
  {
    if j < |records| - 1 {
      RanFirstIs(records[..|records| - 1], i, j);
    } else if i < j {
      RanFirstIs(records[..|records| - 1], i, j - 1);
    }
  }

  /** The phase is ending if its last call was not run. */
  predicate Ending(p: Phase) {
    p.records != [] && p.records[|p.records| - 1].NotRun? ==> p.abort || p.cancelled
  }

  predicate Orderly(p: Phase) {
    RanFirst(p.records) && Ending(p)
  }

  /** A call is not run exactly when the phase is ending, and then it is ending. */
  predicate EndsOrRuns(p: Phase, c: CallStep) {
    && (p.abort || p.cancelled ==> c.record.NotRun?)
    && (c.record.NotRun? ==> c.abort || c.cancelled)
  }

  lemma TakenEndsOrRuns(p: Phase, setup: D.Setup, call: ToolCall, limits: ToolLimits, a: CallAnswer)
    ensures EndsOrRuns(p, CallTaken(p, setup, call, limits, a))
  {}

  lemma OrderlyGrows(p: Phase, c: CallStep)
    requires Orderly(p) && EndsOrRuns(p, c)
    ensures Orderly(Extended(p, c))
  {
    assert Extended(p, c).records[..|p.records|] == p.records;
  }

  lemma OrderlyNext(p: Phase, setup: D.Setup, call: ToolCall, limits: ToolLimits, a: CallAnswer)
    requires Orderly(p)
    ensures Orderly(Extended(p, CallTaken(p, setup, call, limits, a)))
  {
    TakenEndsOrRuns(p, setup, call, limits, a);
    OrderlyGrows(p, CallTaken(p, setup, call, limits, a));
  }

  /** The calls that were dispatched are a prefix: once one is not run, because of the signal or an earlier
      decision to abort, no other is, and the phase ends the turn. */
  lemma {:induction false} DispatchedIsPrefix(setup: D.Setup, calls: seq<ToolCall>, limits: ToolLimits, answers: nat -> CallAnswer, engine: EngineState, n: nat)
    requires n <= |calls|
    ensures Orderly(PhaseUpTo(setup, calls, limits, answers, engine, n))
  {
    if n > 0 {
      DispatchedIsPrefix(setup, calls, limits, answers, engine, n - 1);
      OrderlyNext(PhaseUpTo(setup, calls, limits, answers, engine, n - 1), setup, calls[n - 1], limits, answers(n - 1));
    }
  }

  /** The call, when it was not left out, came to what the dispatcher made of it in some state of the gate and the store. */
  ghost predicate IsDispatched(setup: D.Setup, r: CallRecord, world: D.CallWorld) {
    r.Called? ==> exists limits, allowed, store :: r.outcome == D.DispatchedCall(setup, r.call, limits, world, allowed, store).outcome
  }

  ghost predicate AllDispatched(setup: D.Setup, records: seq<CallRecord>, answers: nat -> CallAnswer) {
    records == [] ||
    var n := |records| - 1;
    AllDispatched(setup, records[..n], answers) && IsDispatched(setup, records[n], answers(n).world)
  }

  lemma TakenIsDispatched(p: Phase, setup: D.Setup, call: ToolCall, limits: ToolLimits, a: CallAnswer)
    ensures IsDispatched(setup, CallTaken(p, setup, call, limits, a).record, a.world)
  {}

  lemma DispatchedGrows(setup: D.Setup, p: Phase, answers: nat -> CallAnswer, n: nat, c: CallStep)
    requires |p.records| == n && AllDispatched(setup, p.records, answers) && IsDispatched(setup, c.record, answers(n).world)
    ensures |Extended(p, c).records| == n + 1 && AllDispatched(setup, Extended(p, c).records, answers)
  {
    assert Extended(p, c).records[..n] == p.records;
  }

  // ----- the history stays linear -----

  predicate Sound(r: StepRecord) {
    var calls := Collected(r.chunks, |r.chunks|).calls;
    match r
    case ToolStep(_, _, _, records) => AllFaithful(records, calls)
    case SpokenStep(_, _, _) => calls == []
    case _ => true
  }

  /** One record for each call the model asked for. */
  predicate Shaped(r: StepRecord) {
    var calls := Collected(r.chunks, |r.chunks|).calls;
    match r
    case ToolStep(_, _, _, records) => AllOf(records, calls)
    case SpokenStep(_, _, _) => calls == []
    case _ => true
  }

  predicate AllShaped(records: seq<StepRecord>) {
    records == [] || (AllShaped(records[..|records| - 1]) && Shaped(records[|records| - 1]))
  }

  predicate AllSound(records: seq<StepRecord>) {
    records == [] || (AllSound(records[..|records| - 1]) && Sound(records[|records| - 1]))
  }

  /** The hooks keep ids in every call of every round. */
  ghost predicate IdsKept(setup: D.Setup, rounds: seq<Round>) {
    forall round <- rounds :: HooksKeepIds(setup, round.calls)
  }

  lemma FollowsSound(request: TurnRequest, setup: D.Setup, s: TurnState, round: Round, r: StepRecord, q: TurnState)
    requires ToolsFollow(request, setup, s, round, r, q) && HooksKeepIds(setup, round.calls)
    ensures Sound(r)
  {
    if r.ToolStep? {
      var calls := Collected(r.chunks, |r.chunks|).calls;
      PhaseIsFaithful(setup, calls, Narrowed(request.limits, request.budget, request.startedAt, round.limitsNow), round.calls, s.engine, |calls|);
      assert calls[..|calls|] == calls;
    }
  }

  lemma FollowsShaped(request: TurnRequest, setup: D.Setup, s: TurnState, round: Round, r: StepRecord, q: TurnState)
    requires ToolsFollow(request, setup, s, round, r, q)
    ensures Shaped(r)
  {
    if r.ToolStep? {
      var calls := Collected(r.chunks, |r.chunks|).calls;
      PhaseIsOf(setup, calls, Narrowed(request.limits, request.budget, request.startedAt, round.limitsNow), round.calls, s.engine, |calls|);
      assert calls[..|calls|] == calls;
    }
  }

  // ----- runs as paths -----

  /** A round leads from `s` to `q`: nothing happens any more, or the turn stops, or the request `r` is made,
      with sound records if the hooks keep ids. */
  predicate Moved(request: TurnRequest, kept: bool, s: TurnState, round: Round, r: Option<StepRecord>, q: TurnState) {
    if s.stop.Some? then r.None? && q == s
    else match r
      case None => Preflight(request, s, round).Some? && q == s.(stop := Preflight(request, s, round))
      case Some(r) => Requested(request, s, round, r, q) && Shaped(r) && Ordered(r, q) && Settled(round, r, q) && (kept ==> Sound(r))
  }

  /** No call of the step was dispatched behind one that was not, and one that was not ends the turn. */
  predicate Ordered(r: StepRecord, q: TurnState) {
    r.ToolStep? ==> RanFirst(r.calls) && (r.calls != [] && r.calls[|r.calls| - 1].NotRun? ==> q.stop.Some?)
  }

  lemma FollowsOrdered(request: TurnRequest, setup: D.Setup, s: TurnState, round: Round, r: StepRecord, q: TurnState)
    requires ToolsFollow(request, setup, s, round, r, q)
    ensures Ordered(r, q)
  {
    if r.ToolStep? {
      var calls := Collected(r.chunks, |r.chunks|).calls;
      DispatchedIsPrefix(setup, calls, Narrowed(request.limits, request.budget, request.startedAt, round.limitsNow), round.calls, s.engine, |calls|);
    }
  }

  /** The user aborted the turn when asked about one of these calls. */
  predicate Aborts(records: seq<CallRecord>) {
    exists i :: 0 <= i < |records| && records[i].Called? && records[i].outcome.Stopped? && records[i].outcome.abort
  }

  /** How a request ends, and whether the turn does with it. */
  predicate Settled(round: Round, r: StepRecord, q: TurnState) {
    && (r.FailedStep? <==> round.answer.throws)
    && (r.CancelledStep? <==> !round.answer.throws && round.abortedAfter)
    && (r.SpokenStep? ==> q.stop == Some(if Collected(r.chunks, |r.chunks|).finish == Some(ErrorFinish) then Error else EndTurn))
    && (r.ToolStep? ==> Collected(r.chunks, |r.chunks|).calls != [] && AllFair(r.calls) && Signalled(r.calls, round.calls))
    && (r.ToolStep? ==> q.stop == if Aborts(r.calls) then Some(Refused) else if EndsUnrun(r.calls) then Some(Cancelled) else None)
  }

  /** A call is not run exactly when the signal is up, or the one before it was not run or was aborted. */
  predicate Signalled(records: seq<CallRecord>, answers: nat -> CallAnswer) {
    records == [] ||
    var n := |records| - 1;
    Signalled(records[..n], answers) && (records[n].NotRun? <==> answers(n).aborted || (n > 0 && EndsWith(records[n - 1])))
  }

  predicate EndsWith(r: CallRecord) {
    r.NotRun? || (r.outcome.Stopped? && r.outcome.abort)
  }

  lemma {:induction false} SignalledAt(records: seq<CallRecord>, answers: nat -> CallAnswer, i: nat)
    requires Signalled(records, answers) && i < |records|
    ensures records[i].NotRun? <==> answers(i).aborted || (i > 0 && EndsWith(records[i - 1]))
  {
    if i < |records| - 1 {
      SignalledAt(records[..|records| - 1], answers, i);
    }
  }

  /** A phase is ending exactly when its last call ends it. */
  predicate EndsByLast(p: Phase) {
    p.abort || p.cancelled <==> p.records != [] && EndsWith(p.records[|p.records| - 1])
  }

  predicate Heeds(p: Phase, answers: nat -> CallAnswer, n: nat) {
    |p.records| == n && Signalled(p.records, answers) && EndsByLast(p)
  }

  predicate HeedsNext(p: Phase, aborted: bool, c: CallStep) {
    && (c.record.NotRun? <==> p.abort || p.cancelled || aborted)
    && (c.abort || c.cancelled <==> EndsWith(c.record))
  }

  lemma HeedsOn(p: Phase, answers: nat -> CallAnswer, n: nat, c: CallStep)
    requires Heeds(p, answers, n) && HeedsNext(p, answers(n).aborted, c)
    ensures Heeds(Extended(p, c), answers, n + 1)
  {
    assert Extended(p, c).records[..n] == p.records;
  }

  lemma TakenHeedsNext(p: Phase, setup: D.Setup, call: ToolCall, limits: ToolLimits, a: CallAnswer)
    ensures HeedsNext(p, a.aborted, CallTaken(p, setup, call, limits, a))
  {}

  lemma TakenHeeds(p: Phase, setup: D.Setup, call: ToolCall, limits: ToolLimits, answers: nat -> CallAnswer, n: nat)
    requires Heeds(p, answers, n)
    ensures Heeds(Extended(p, CallTaken(p, setup, call, limits, answers(n))), answers, n + 1)
  {
    TakenHeedsNext(p, setup, call, limits, answers(n));
    HeedsOn(p, answers, n, CallTaken(p, setup, call, limits, answers(n)));
  }

  lemma {:induction false} PhaseHeeds(setup: D.Setup, calls: seq<ToolCall>, limits: ToolLimits, answers: nat -> CallAnswer, engine: EngineState, n: nat)
    requires n <= |calls|
    ensures Heeds(PhaseUpTo(setup, calls, limits, answers, engine, n), answers, n)
  {
    if n > 0 {
      PhaseHeeds(setup, calls, limits, answers, engine, n - 1);
      TakenHeeds(PhaseUpTo(setup, calls, limits, answers, engine, n - 1), setup, calls[n - 1], limits, answers, n - 1);
    }
  }

  predicate EndsUnrun(records: seq<CallRecord>) {
    records != [] && records[|records| - 1].NotRun?
  }

  predicate AllFair(records: seq<CallRecord>) {
    forall i :: 0 <= i < |records| && records[i].Called? ==> D.StopsFairly(records[i].outcome)
  }

  /** What a phase knows of its end is what its records show. */
  predicate ShowsEnd(p: Phase) {
    && AllFair(p.records)
    && (p.abort <==> Aborts(p.records))
    && (!p.abort ==> (p.cancelled <==> EndsUnrun(p.records)))
  }

  lemma ShowsEndOn(p: Phase, c: CallStep)
    requires ShowsEnd(p) && (c.record.Called? ==> D.StopsFairly(c.record.outcome))
    requires if p.abort then c.abort && c.record.NotRun?
             else if p.cancelled then !c.abort && c.cancelled && c.record.NotRun?
             else if c.record.NotRun? then !c.abort && c.cancelled
             else !c.cancelled && (c.abort <==> c.record.outcome.Stopped? && c.record.outcome.abort)
    ensures ShowsEnd(Extended(p, c))
  {
    var all := Extended(p, c).records;
    assert all[|p.records|] == c.record;
    assert forall i :: 0 <= i < |p.records| ==> all[i] == p.records[i];
  }

  lemma TakenShowsEnd(p: Phase, setup: D.Setup, call: ToolCall, limits: ToolLimits, a: CallAnswer)
    requires ShowsEnd(p)
    ensures ShowsEnd(Extended(p, CallTaken(p, setup, call, limits, a)))
  {
    D.StoppedFairly(setup, call, limits, a.world, p.engine.allowed, p.engine.store);
    ShowsEndOn(p, CallTaken(p, setup, call, limits, a));
  }

  lemma {:induction false} PhaseShowsEnd(setup: D.Setup, calls: seq<ToolCall>, limits: ToolLimits, answers: nat -> CallAnswer, engine: EngineState, n: nat)
    requires n <= |calls|
    ensures ShowsEnd(PhaseUpTo(setup, calls, limits, answers, engine, n))
  {
    if n > 0 {
      PhaseShowsEnd(setup, calls, limits, answers, engine, n - 1);
      TakenShowsEnd(PhaseUpTo(setup, calls, limits, answers, engine, n - 1), setup, calls[n - 1], limits, answers(n - 1));
    }
  }

  lemma RoundSettled(request: TurnRequest, setup: D.Setup, s: TurnState, round: Round, r: StepRecord, q: TurnState)
    requires q == RoundTaken(request, setup, s, round) && Preflight(request, s, round).None? && q.records == s.records + [r]
    requires ToolsFollow(request, setup, s, round, r, q) && Requested(request, s, round, r, q)
    ensures Settled(round, r, q)
  {
    if r.ToolStep? {
      var calls := Collected(r.chunks, |r.chunks|).calls;
      var limits := Narrowed(request.limits, request.budget, request.startedAt, round.limitsNow);
      PhaseShowsEnd(setup, calls, limits, round.calls, s.engine, |calls|);
      PhaseHeeds(setup, calls, limits, round.calls, s.engine, |calls|);
    }
    assert r == q.records[|s.records|];
  }

  datatype Hop = Hop(r: Option<StepRecord>, q: TurnState)

  function Last(start: TurnState, hops: seq<Hop>): TurnState {
    if hops == [] then start else hops[|hops| - 1].q
  }

  predicate Path(request: TurnRequest, kept: bool, start: TurnState, rounds: seq<Round>, hops: seq<Hop>) {
    hops == [] ||
    var n := |hops| - 1;
    && n < |rounds| && Path(request, kept, start, rounds, hops[..n])
    && Moved(request, kept, Last(start, hops[..n]), rounds[n], hops[n].r, hops[n].q)
  }

  function Start(engine: EngineState): TurnState {
    TurnState([], ZERO_USAGE, 0, None, engine)
  }

  lemma MovedOnce(request: TurnRequest, setup: D.Setup, kept: bool, s: TurnState, round: Round) returns (hop: Hop)
    requires kept ==> HooksKeepIds(setup, round.calls)
    ensures hop.q == if s.stop.Some? then s else RoundTaken(request, setup, s, round)
    ensures Moved(request, kept, s, round, hop.r, hop.q)
  {
    if s.stop.Some? {
      hop := Hop(None, s);
    } else {
      var r := RoundIs(request, setup, s, round);
      hop := Hop(r, RoundTaken(request, setup, s, round));
      if r.Some? {
        FollowsShaped(request, setup, s, round, r.value, hop.q);
        FollowsOrdered(request, setup, s, round, r.value, hop.q);
        RoundSettled(request, setup, s, round, r.value, hop.q);
        if kept {
          FollowsSound(request, setup, s, round, r.value, hop.q);
        }
      }
    }
  }

  /** A path goes on. */
  lemma PathGoesOn(request: TurnRequest, setup: D.Setup, kept: bool, start: TurnState, rounds: seq<Round>, hops: seq<Hop>) returns (hop: Hop)
    requires |hops| < |rounds| && Path(request, kept, start, rounds, hops)
    requires kept ==> HooksKeepIds(setup, rounds[|hops|].calls)
    ensures Path(request, kept, start, rounds, hops + [hop]) && Last(start, hops + [hop]) == hop.q
    ensures hop.q == if Last(start, hops).stop.Some? then Last(start, hops) else RoundTaken(request, setup, Last(start, hops), rounds[|hops|])
  {
    hop := MovedOnce(request, setup, kept, Last(start, hops), rounds[|hops|]);
    PathGrows(request, kept, start, rounds, hops, hop);
  }

  /** Every run is a path. */
  lemma {:induction false} RunIsPath(request: TurnRequest, setup: D.Setup, engine: EngineState, rounds: seq<Round>, n: nat, kept: bool) returns (hops: seq<Hop>)
    requires n <= |rounds| && (kept ==> IdsKept(setup, rounds))
    ensures |hops| == n && Path(request, kept, Start(engine), rounds, hops)
    ensures IsAfter(request, setup, engine, rounds, n, Last(Start(engine), hops))
  {
    if n == 0 {
      hops := [];
    } else {
      var before := RunIsPath(request, setup, engine, rounds, n - 1, kept);
      IdsKeptAt(setup, rounds, n - 1);
      var hop := PathGoesOn(request, setup, kept, Start(engine), rounds, before);
      hops := before + [hop];
      AfterOneMore(request, setup, engine, rounds, n - 1, Last(Start(engine), before), hop.q);
    }
  }

  lemma IdsKeptAt(setup: D.Setup, rounds: seq<Round>, i: nat)
    requires i < |rounds|
    ensures IdsKept(setup, rounds) ==> HooksKeepIds(setup, rounds[i].calls)
  {
    assert rounds[i] in rounds;
  }

  lemma PathGrows(request: TurnRequest, kept: bool, start: TurnState, rounds: seq<Round>, hops: seq<Hop>, hop: Hop)
    requires |hops| < |rounds| && Path(request, kept, start, rounds, hops)
    requires Moved(request, kept, Last(start, hops), rounds[|hops|], hop.r, hop.q)
    ensures Path(request, kept, start, rounds, hops + [hop]) && Last(start, hops + [hop]) == hop.q
  {
    assert (hops + [hop])[..|hops|] == hops;
  }

  lemma AfterOneMore(request: TurnRequest, setup: D.Setup, engine: EngineState, rounds: seq<Round>, n: nat, s: TurnState, q: TurnState)
    requires n < |rounds| && IsAfter(request, setup, engine, rounds, n, s)
    requires q == if s.stop.Some? then s else RoundTaken(request, setup, s, rounds[n])
    ensures IsAfter(request, setup, engine, rounds, n + 1, q)
  {}

  /** A property that holds of a run's last state holds of the state after its rounds. */
  lemma PathTo(request: TurnRequest, setup: D.Setup, engine: EngineState, rounds: seq<Round>, n: nat, kept: bool, q: TurnState) returns (hops: seq<Hop>)
    requires IsAfter(request, setup, engine, rounds, n, q) && (kept ==> IdsKept(setup, rounds))
    ensures |hops| == n && Path(request, kept, Start(engine), rounds, hops) && Last(Start(engine), hops) == q
  {
    hops := RunIsPath(request, setup, engine, rounds, n, kept);
  }

  lemma MovedSound(request: TurnRequest, kept: bool, s: TurnState, round: Round, r: Option<StepRecord>, q: TurnState)
    requires Moved(request, kept, s, round, r, q) && AllShaped(s.records) && (kept ==> AllSound(s.records))
    ensures AllShaped(q.records) && (kept ==> AllSound(q.records))
  {
    if r.Some? {
      assert (s.records + [r.value])[..|s.records|] == s.records;
    }
  }

  lemma {:induction false} PathIsSound(request: TurnRequest, kept: bool, engine: EngineState, rounds: seq<Round>, hops: seq<Hop>)
    requires Path(request, kept, Start(engine), rounds, hops)
    ensures AllShaped(Last(Start(engine), hops).records) && (kept ==> AllSound(Last(Start(engine), hops).records))
  {
    if hops != [] {
      var n := |hops| - 1;
      PathIsSound(request, kept, engine, rounds, hops[..n]);
      MovedSound(request, kept, Last(Start(engine), hops[..n]), rounds[n], hops[n].r, hops[n].q);
    }
  }

  lemma StepLinearIff(r: StepRecord)
    requires Shaped(r)
    ensures Linear(StepMessages(r)) <==> Sound(r)
    ensures Closed(StepMessages(r))
  {
    var streamed := Collected(r.chunks, |r.chunks|);
    match r {
      case FailedStep(_) =>
      case CancelledStep(_, _, _) =>
      case SpokenStep(_, _, _) =>
        AnsweredIsLinear(Content(streamed.text), [], []);
        NothingAppended([Spoken(streamed)]);
      case ToolStep(_, _, _, records) =>
        AnswersIffFaithful(records, streamed.calls);
        AnsweredIsLinear(Content(streamed.text), streamed.calls, MessagesOf(records));
        ClosedStep(Spoken(streamed), MessagesOf(records));
    }
  }

  lemma {:induction false} AllStepsLinearIff(records: seq<StepRecord>)
    requires AllShaped(records)
    ensures Linear(AllMessages(records)) <==> AllSound(records)
    ensures Closed(AllMessages(records))
  {
    if records != [] {
      var n := |records| - 1;
      AllStepsLinearIff(records[..n]);
      StepLinearIff(records[n]);
      LinearIffParts(AllMessages(records[..n]), StepMessages(records[n]));
      ClosedAppend(AllMessages(records[..n]), StepMessages(records[n]));
    }
  }

  lemma OpeningIsLinear(request: TurnRequest, hooks: seq<H.RegisteredHook>)
    ensures Linear(Opening(request, hooks))
  {}

  lemma TurnLinearIff(request: TurnRequest, hooks: seq<H.RegisteredHook>, history: seq<Message>, s: TurnState)
    requires Linear(history) && AllShaped(s.records)
    ensures Linear(history + TurnMessages(request, hooks, s)) <==> AllSound(s.records)
  {
    OpeningIsLinear(request, hooks);
    LinearIsClosed(history);
    LinearIsClosed(Opening(request, hooks));
    AllStepsLinearIff(s.records);
    LinearIffParts(Opening(request, hooks), AllMessages(s.records));
    LinearIffParts(history, Opening(request, hooks) + AllMessages(s.records));
  }

  /** A linear history is linear after a turn exactly when every tool result that was appended carries the id
      of its call, whatever the model, the tools, the user and the clock do and whenever the turn is cancelled. */
  lemma HistoryIsLinearIff(request: TurnRequest, setup: D.Setup, engine: EngineState, rounds: seq<Round>, history: seq<Message>)
    requires Linear(history)
    ensures var s := Ended(request, setup, engine, rounds);
            Linear(history + TurnMessages(request, setup.hooks, s)) <==> AllSound(s.records)
  {
    var s := StateAfter(request, setup, engine, rounds, |rounds|);
    var hops := PathTo(request, setup, engine, rounds, |rounds|, false, s);
    PathIsSound(request, false, engine, rounds, hops);
    TurnLinearIff(request, setup.hooks, history, Ended(request, setup, engine, rounds));
  }

  /** So it always is, as long as the post hooks keep the ids of the calls. */
  lemma HistoryStaysLinear(request: TurnRequest, setup: D.Setup, engine: EngineState, rounds: seq<Round>, history: seq<Message>)
    requires Linear(history) && IdsKept(setup, rounds)
    ensures Linear(history + TurnMessages(request, setup.hooks, Ended(request, setup, engine, rounds)))
  {
    var s := StateAfter(request, setup, engine, rounds, |rounds|);
    var hops := PathTo(request, setup, engine, rounds, |rounds|, true, s);
    PathIsSound(request, true, engine, rounds, hops);
    TurnLinearIff(request, setup.hooks, history, Ended(request, setup, engine, rounds));
  }

  // ----- the numbering of the events -----

  /** In a log that does not know the turn yet, the events of the turn are numbered without a gap. */
  lemma TurnIsContiguous(log: seq<Event>, turnId: string, request: TurnRequest, s: TurnState)
    requires Contiguous(log) && CountTurn(log, turnId) == 0 && s.stop.Some?
    ensures Contiguous(log + Stamped(turnId, 0, TurnEvents(request, s)))
  {
    StampedIsContiguous(log, turnId, TurnEvents(request, s));
  }

  // ----- budgets -----

  /** A turn that has not stopped has made and counted one request in each of its `n` rounds; one that has
      stopped for its steps has made no fewer than the ceiling, and no turn has made more. */
  predicate StepsAdd(request: TurnRequest, n: nat, s: TurnState) {
    && s.steps <= |s.records| <= s.steps + 1
    && (s.stop.None? ==> s.steps == |s.records| == n)
    && (s.stop == Some(MaxSteps) ==> request.budget.maxSteps.Some? && s.steps == |s.records| >= request.budget.maxSteps.value)
    && (request.budget.maxSteps.Some? ==> |s.records| <= request.budget.maxSteps.value)
  }

  lemma MovedSteps(request: TurnRequest, s: TurnState, round: Round, r: Option<StepRecord>, q: TurnState, n: nat)
    requires Moved(request, false, s, round, r, q) && StepsAdd(request, n, s)
    ensures StepsAdd(request, n + 1, q)
  {
    if r.Some? {
      assert !Budget.Reached(TrackedBy(request, s), round.now, Steps);
    }
  }

  lemma {:induction false} PathSteps(request: TurnRequest, engine: EngineState, rounds: seq<Round>, hops: seq<Hop>)
    requires Path(request, false, Start(engine), rounds, hops)
    ensures StepsAdd(request, |hops|, Last(Start(engine), hops))
  {
    if hops != [] {
      var n := |hops| - 1;
      PathSteps(request, engine, rounds, hops[..n]);
      MovedSteps(request, Last(Start(engine), hops[..n]), rounds[n], hops[n].r, hops[n].q, n);
    }
  }

  /** With a step ceiling, a turn makes at most that many requests and ends within one round more; it stops
      for that reason only when it has made exactly that many. */
  lemma StepsAreBounded(request: TurnRequest, setup: D.Setup, engine: EngineState, rounds: seq<Round>, n: nat, q: TurnState)
    requires IsAfter(request, setup, engine, rounds, n, q) && request.budget.maxSteps.Some?
    ensures var m := request.budget.maxSteps.value;
            && |q.records| <= m
            && (n > m ==> q.stop.Some?)
            && (q.stop == Some(MaxSteps) ==> q.steps == |q.records| == m)
  {
    var hops := PathTo(request, setup, engine, rounds, n, false, q);
    PathSteps(request, engine, rounds, hops);
  }

  /** A request is made in a round exactly when the turn goes on, the signal is not up, and no ceiling of any
      kind has been reached. */
  lemma RequestsAreWithinBudget(request: TurnRequest, setup: D.Setup, engine: EngineState, rounds: seq<Round>, n: nat, s: TurnState, q: TurnState)
    requires n < |rounds| && IsAfter(request, setup, engine, rounds, n, s) && IsAfter(request, setup, engine, rounds, n + 1, q)
    ensures |q.records| > |s.records|
       <==> s.stop.None? && !rounds[n].aborted && forall kind :: !Budget.Reached(TrackedBy(request, s), rounds[n].now, kind)
  {
    MovedWithinBudget(request, setup, s, rounds[n], q);
  }

  lemma MovedWithinBudget(request: TurnRequest, setup: D.Setup, s: TurnState, round: Round, q: TurnState)
    requires q == if s.stop.Some? then s else RoundTaken(request, setup, s, round)
    ensures |q.records| > |s.records|
       <==> s.stop.None? && !round.aborted && forall kind :: !Budget.Reached(TrackedBy(request, s), round.now, kind)
  {
    var hop := MovedOnce(request, setup, false, s, round);
    assert Preflight(request, s, round).None?
      <==> !round.aborted && forall kind :: !Budget.Reached(TrackedBy(request, s), round.now, kind);
  }

  // ----- usage -----

  /** What the streams of a turn reported. */
  function ReportedUsages(records: seq<StepRecord>): seq<Usage> {
    if records == [] then []
    else ReportedUsages(records[..|records| - 1]) + StepUsage(records[|records| - 1])
  }

  function StepUsage(r: StepRecord): seq<Usage> {
    if r.FailedStep? then []
    else match Collected(r.chunks, |r.chunks|).usage
      case Some(u) => [u]
      case None => []
  }

  predicate UsageAddsUp(s: TurnState) {
    s.usage == Accumulated(ReportedUsages(s.records))
  }

  lemma MovedUsage(request: TurnRequest, s: TurnState, round: Round, r: Option<StepRecord>, q: TurnState)
    requires Moved(request, false, s, round, r, q) && UsageAddsUp(s)
    ensures UsageAddsUp(q)
  {
    if r.Some? {
      UsageGrows(s.records, r.value, s.usage);
    }
  }

  lemma {:induction false} PathUsage(request: TurnRequest, engine: EngineState, rounds: seq<Round>, hops: seq<Hop>)
    requires Path(request, false, Start(engine), rounds, hops)
    ensures UsageAddsUp(Last(Start(engine), hops))
  {
    if hops != [] {
      var n := |hops| - 1;
      PathUsage(request, engine, rounds, hops[..n]);
      MovedUsage(request, Last(Start(engine), hops[..n]), rounds[n], hops[n].r, hops[n].q);
    }
  }

  lemma UsageGrows(records: seq<StepRecord>, r: StepRecord, usage: Usage)
    requires usage == Accumulated(ReportedUsages(records))
    ensures Accumulated(ReportedUsages(records + [r]))
         == if r.FailedStep? then usage else WithUsage(usage, Collected(r.chunks, |r.chunks|))
  {
    assert (records + [r])[..|records|] == records;
    var before, more := ReportedUsages(records), StepUsage(r);
    if more == [] {
      assert before + more == before;
    } else {
      assert (before + more)[..|before|] == before;
    }
  }

  lemma EndAddsUp(request: TurnRequest, setup: D.Setup, engine: EngineState, rounds: seq<Round>)
    ensures UsageAddsUp(Ended(request, setup, engine, rounds))
  {
    var s := StateAfter(request, setup, engine, rounds, |rounds|);
    var hops := PathTo(request, setup, engine, rounds, |rounds|, false, s);
    PathUsage(request, engine, rounds, hops);
  }

  /** The usage of a turn is, counter by counter, the sum of what its streams reported, with the hit rate of
      those sums. */
  lemma TurnUsageIsSum(request: TurnRequest, setup: D.Setup, engine: EngineState, rounds: seq<Round>, counter: Counter)
    ensures var s := Ended(request, setup, engine, rounds);
            var reported := ReportedUsages(s.records);
            && Count(s.usage, counter) == Sum(reported, counter)
            && s.usage.cacheHitRate == HitRate(Sum(reported, Input), Sum(reported, Cached))
  {
    EndAddsUp(request, setup, engine, rounds);
    AccumulatedIs(ReportedUsages(Ended(request, setup, engine, rounds).records));
  }

  /** One turn of a session, and how it is found to end. */
  datatype TurnRun = TurnRun(request: TurnRequest, setup: D.Setup, engine: EngineState, rounds: seq<Round>)

  function EndOf(turn: TurnRun): TurnState {
    Ended(turn.request, turn.setup, turn.engine, turn.rounds)
  }

  /** The ends of turns. */
  function Ends(turns: seq<TurnRun>): seq<TurnState> {
    if turns == [] then [] else Ends(turns[..|turns| - 1]) + [EndOf(turns[|turns| - 1])]
  }

  /** What a new session has used behind turns that ended so: each adds its usage. */
  function SessionUsage(ends: seq<TurnState>): Usage {
    if ends == [] then ZERO_USAGE else AddUsage(SessionUsage(ends[..|ends| - 1]), ends[|ends| - 1].usage)
  }

  /** What the streams of all their requests reported. */
  function AllReported(ends: seq<TurnState>): seq<Usage> {
    if ends == [] then [] else AllReported(ends[..|ends| - 1]) + ReportedUsages(ends[|ends| - 1].records)
  }

  predicate AllAddUp(ends: seq<TurnState>) {
    ends == [] || (AllAddUp(ends[..|ends| - 1]) && UsageAddsUp(ends[|ends| - 1]))
  }

  lemma {:induction false} EndsAddUp(turns: seq<TurnRun>)
    ensures AllAddUp(Ends(turns))
  {
    if turns != [] {
      var n := |turns| - 1;
      EndsAddUp(turns[..n]);
      EndAddsUp(turns[n].request, turns[n].setup, turns[n].engine, turns[n].rounds);
      AddUpGrows(Ends(turns[..n]), EndOf(turns[n]));
    }
  }

  lemma AddUpGrows(ends: seq<TurnState>, s: TurnState)
    requires AllAddUp(ends) && UsageAddsUp(s)
    ensures AllAddUp(ends + [s])
  {
    assert (ends + [s])[..|ends|] == ends;
  }

  lemma {:induction false} SessionAddsUp(ends: seq<TurnState>, counter: Counter)
    requires AllAddUp(ends)
    ensures var total := SessionUsage(ends);
            && Count(total, counter) == Sum(AllReported(ends), counter)
            && total.cacheHitRate == HitRate(Count(total, Input), Count(total, Cached))
  {
    if ends != [] {
      var before, last := ends[..|ends| - 1], ends[|ends| - 1];
      SessionAddsUp(before, counter);
      AccumulatedIs(ReportedUsages(last.records));
      SumAppend(AllReported(before), ReportedUsages(last.records), counter);
      CountAdds(SessionUsage(before), last.usage, counter);
    }
  }

  /** The usage of a session is the sum of what the streams of all its turns reported, with the hit rate of the sums,
      whatever its turns were and however they ended. */
  lemma SessionUsageIsSum(turns: seq<TurnRun>, counter: Counter)
    ensures var total, reported := SessionUsage(Ends(turns)), AllReported(Ends(turns));
            && Count(total, counter) == Sum(reported, counter)
            && total.cacheHitRate == HitRate(Sum(reported, Input), Sum(reported, Cached))
  {
    EndsAddUp(turns);
    SessionAddsUp(Ends(turns), counter);
    SessionAddsUp(Ends(turns), Input);
    SessionAddsUp(Ends(turns), Cached);
  }

  lemma CountAdds(a: Usage, b: Usage, counter: Counter)
    ensures Count(AddUsage(a, b), counter) == Count(a, counter) + Count(b, counter)
    ensures AddUsage(a, b).cacheHitRate == HitRate(Count(AddUsage(a, b), Input), Count(AddUsage(a, b), Cached))
  {}
}
