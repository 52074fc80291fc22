/** What the events of a turn tell whoever reads them (packages/core/src/turn.ts). */
module TurnTrace {
  import opened Text
  import opened Cost
  import opened Budget
  import opened Events
  import opened Session
  import opened Turn
  import opened TurnFacts
  import D = Dispatch

  // ----- a reader of the events -----

  /** Where a reader of a turn's events stands: before the first, between calls with so many requests
      counted, inside a call, behind the last, or at an event that has no place there. A strict reader also looks
      at the id a call is finished with. */
  datatype Trace = Fresh | Idle(steps: nat) | Running(steps: nat, callId: string) | Done | Broken

  function Next(strict: bool, t: Trace, p: Payload): Trace {
    match t
    case Fresh => if p.TurnStarted? then Idle(0) else Broken
    case Idle(steps) =>
      (match p
       case TextDelta(text) => if text != "" then t else Broken
       case UsageUpdated(_, _, n) => if n == steps + 1 then Idle(n) else Broken
       case ToolDenied(_, _, _, _) => t
       case ToolStarted(call, n) => if n == steps then Running(steps, call.callId) else Broken
       case TurnCompleted(_, _, _, n) => if n == steps then Done else Broken
       case _ => Broken)
    case Running(steps, callId) =>
      (match p
       case Emitted(_) => t
       case ToolFinished(result) => if strict ==> result.callId == callId then Idle(steps) else Broken
       case _ => Broken)
    case _ => Broken
  }

  function TraceAfter(strict: bool, t: Trace, events: seq<Payload>): Trace {
    if events == [] then t else Next(strict, TraceAfter(strict, t, events[..|events| - 1]), events[|events| - 1])
  }

  lemma {:induction false} TraceAppend(strict: bool, t: Trace, a: seq<Payload>, b: seq<Payload>)
    ensures TraceAfter(strict, t, a + b) == TraceAfter(strict, TraceAfter(strict, t, a), b)
  {
    if b == [] {
      assert a + b == a;
    } else {
      var n := |b| - 1;
      assert (a + b)[..|a| + n] == a + b[..n];
      TraceAppend(strict, t, a, b[..n]);
    }
  }

  lemma TraceOne(strict: bool, t: Trace, p: Payload)
    ensures TraceAfter(strict, t, [p]) == Next(strict, t, p)
  {
    assert [p][..0] == [];
  }

  lemma {:induction false} DeltasIdle(strict: bool, chunks: seq<Chunk>, n: nat, steps: nat)
    requires n <= |chunks|
    ensures TraceAfter(strict, Idle(steps), Deltas(chunks, n)) == Idle(steps)
  {
    if n > 0 {
      DeltasIdle(strict, chunks, n - 1, steps);
      TraceAppend(strict, Idle(steps), Deltas(chunks, n - 1), ChunkEvents(chunks[n - 1]));
      ChunkIdle(strict, chunks[n - 1], steps);
    }
  }

  lemma ChunkIdle(strict: bool, chunk: Chunk, steps: nat)
    ensures TraceAfter(strict, Idle(steps), ChunkEvents(chunk)) == Idle(steps)
  {
    if chunk.TextChunk? && chunk.text != "" {
      TraceOne(strict, Idle(steps), TextDelta(chunk.text));
    }
  }

  lemma {:induction false} EmissionsRun(strict: bool, emissions: seq<Emission>, steps: nat, callId: string)
    ensures TraceAfter(strict, Running(steps, callId), EmissionEvents(emissions)) == Running(steps, callId)
  {
    if emissions != [] {
      var before := EmissionEvents(emissions[..|emissions| - 1]);
      EmissionsRun(strict, emissions[..|emissions| - 1], steps, callId);
      TraceAppend(strict, Running(steps, callId), before, [Emitted(emissions[|emissions| - 1])]);
      TraceOne(strict, Running(steps, callId), Emitted(emissions[|emissions| - 1]));
    }
  }

  lemma RecordIdle(strict: bool, r: CallRecord, steps: nat)
    requires strict ==> Faithful(r, r.call)
    ensures TraceAfter(strict, Idle(steps), RecordEvents(r, steps)) == Idle(steps)
  {
    match r {
      case NotRun(_, _) =>
      case Called(call, Stopped(source, reason, _)) =>
        TraceOne(strict, Idle(steps), ToolDenied(call.callId, call.name, source, reason));
      case Called(call, Executed(result, emissions)) =>
        EmissionsRun(strict, emissions, steps, call.callId);
        ExecutedIdle(strict, ToolStarted(call, steps), EmissionEvents(emissions), ToolFinished(result), steps, call.callId);
    }
  }

  lemma ExecutedIdle(strict: bool, first: Payload, emitted: seq<Payload>, last: Payload, steps: nat, callId: string)
    requires Next(strict, Idle(steps), first) == Running(steps, callId) && Next(strict, Running(steps, callId), last) == Idle(steps)
    requires TraceAfter(strict, Running(steps, callId), emitted) == Running(steps, callId)
    ensures TraceAfter(strict, Idle(steps), [first] + emitted + [last]) == Idle(steps)
  {
    TraceOne(strict, Idle(steps), first);
    TraceAppend(strict, Idle(steps), [first], emitted);
    TraceAppend(strict, Idle(steps), [first] + emitted, [last]);
    TraceOne(strict, Running(steps, callId), last);
  }

  lemma {:induction false} CallsIdle(strict: bool, records: seq<CallRecord>, steps: nat)
    requires strict ==> AllOwn(records)
    ensures TraceAfter(strict, Idle(steps), CallEvents(records, steps)) == Idle(steps)
  {
    if records != [] {
      var n := |records| - 1;
      CallsIdle(strict, records[..n], steps);
      TraceAppend(strict, Idle(steps), CallEvents(records[..n], steps), RecordEvents(records[n], steps));
      RecordIdle(strict, records[n], steps);
    }
  }

  /** Every executed call answers with its own id. */
  predicate AllOwn(records: seq<CallRecord>) {
    records == [] || (AllOwn(records[..|records| - 1]) && Faithful(records[|records| - 1], records[|records| - 1].call))
  }

  lemma {:induction false} FaithfulIsOwn(records: seq<CallRecord>, calls: seq<ToolCall>)
    requires AllFaithful(records, calls)
    ensures AllOwn(records)
  {
    if records != [] {
      FaithfulIsOwn(records[..|records| - 1], calls[..|calls| - 1]);
    }
  }

  lemma CountedIdle(strict: bool, model: string, chunks: seq<Chunk>, usage: Usage, steps: nat)
    ensures TraceAfter(strict, Idle(steps), Counted(model, chunks, usage, steps + 1)) == Idle(steps + 1)
  {
    DeltasIdle(strict, chunks, |chunks|, steps);
    TraceAppend(strict, Idle(steps), Deltas(chunks, |chunks|), [UsageUpdated(model, usage, steps + 1)]);
    TraceOne(strict, Idle(steps), UsageUpdated(model, usage, steps + 1));
  }

  lemma StepIdle(strict: bool, model: string, r: StepRecord, steps: nat)
    requires (strict ==> Sound(r)) && (!r.FailedStep? ==> r.steps == steps + 1)
    ensures TraceAfter(strict, Idle(steps), StepEvents(model, r)) == Idle(if r.FailedStep? then steps else steps + 1)
  {
    match r {
      case FailedStep(chunks) => DeltasIdle(strict, chunks, |chunks|, steps);
      case CancelledStep(chunks, usage, _) => CountedIdle(strict, model, chunks, usage, steps);
      case SpokenStep(chunks, usage, _) => CountedIdle(strict, model, chunks, usage, steps);
      case ToolStep(chunks, usage, _, records) =>
        CountedIdle(strict, model, chunks, usage, steps);
        TraceAppend(strict, Idle(steps), Counted(model, chunks, usage, steps + 1), CallEvents(records, steps + 1));
        if strict {
          FaithfulIsOwn(records, Collected(chunks, |chunks|).calls);
        }
        CallsIdle(strict, records, steps + 1);
    }
  }

  /** The events of the requests so far end between two calls, with all of them counted. */
  predicate TraceIdle(strict: bool, model: string, s: TurnState) {
    TraceAfter(strict, Idle(0), AllEvents(model, s.records)) == Idle(s.steps)
  }

  lemma MovedIdle(strict: bool, request: TurnRequest, s: TurnState, round: Round, r: Option<StepRecord>, q: TurnState)
    requires Moved(request, strict, s, round, r, q) && TraceIdle(strict, request.model, s)
    ensures TraceIdle(strict, request.model, q)
  {
    if r.Some? {
      StepIdle(strict, request.model, r.value, s.steps);
      assert (s.records + [r.value])[..|s.records|] == s.records;
      TraceAppend(strict, Idle(0), AllEvents(request.model, s.records), StepEvents(request.model, r.value));
    }
  }

  lemma {:induction false} PathIsIdle(strict: bool, request: TurnRequest, engine: EngineState, rounds: seq<Round>, hops: seq<Hop>)
    requires Path(request, strict, Start(engine), rounds, hops)
    ensures TraceIdle(strict, request.model, Last(Start(engine), hops))
  {
    if hops != [] {
      var n := |hops| - 1;
      PathIsIdle(strict, request, engine, rounds, hops[..n]);
      MovedIdle(strict, request, Last(Start(engine), hops[..n]), rounds[n], hops[n].r, hops[n].q);
    }
  }

  /** The events of every turn are well formed: started first and completed last, each once; a request is
      counted in turn; a call that is started is followed by what its tool emitted and then finished, with
      nothing between, and a denied call is not started. If the hooks keep ids, a call is finished with its own. */
  lemma TraceIsWellFormed(strict: bool, request: TurnRequest, setup: D.Setup, engine: EngineState, rounds: seq<Round>)
    requires strict ==> IdsKept(setup, rounds)
    ensures TraceAfter(strict, Fresh, TurnEvents(request, Ended(request, setup, engine, rounds))) == Done
  {
    var s := StateAfter(request, setup, engine, rounds, |rounds|);
    var end := Ended(request, setup, engine, rounds);
    var first := TurnStarted(request.model, request.cacheEpoch, request.warnings);
    var last := TurnCompleted(end.stop.value, request.model, end.usage, end.steps);
    var hops := PathTo(request, setup, engine, rounds, |rounds|, strict, s);
    PathIsIdle(strict, request, engine, rounds, hops);
    WrappedTrace(strict, first, AllEvents(request.model, s.records), last, s.steps);
  }

  lemma WrappedTrace(strict: bool, first: Payload, events: seq<Payload>, last: Payload, steps: nat)
    requires first.TurnStarted? && last.TurnCompleted? && last.steps == steps && TraceAfter(strict, Idle(0), events) == Idle(steps)
    ensures TraceAfter(strict, Fresh, [first] + events + [last]) == Done
  {
    TraceOne(strict, Fresh, first);
    TraceAppend(strict, Fresh, [first], events);
    TraceAppend(strict, Fresh, [first] + events, [last]);
    TraceOne(strict, Idle(steps), last);
  }

  // ----- the calls that are reported -----

  /** The ids of the calls that these events report as started or denied, in order. */
  function Reported(events: seq<Payload>): seq<string> {
    if events == [] then []
    else Reported(events[..|events| - 1]) + match events[|events| - 1]
      case ToolStarted(call, _) => [call.callId]
      case ToolDenied(callId, _, _, _) => [callId]
      case _ => []
  }

  function Ids(calls: seq<ToolCall>): seq<string> {
    if calls == [] then [] else Ids(calls[..|calls| - 1]) + [calls[|calls| - 1].callId]
  }

  function Dispatches(records: seq<CallRecord>): nat {
    if records == [] then 0 else Dispatches(records[..|records| - 1]) + if records[|records| - 1].Called? then 1 else 0
  }

  lemma {:induction false} ReportedAppend(a: seq<Payload>, b: seq<Payload>)
    ensures Reported(a + b) == Reported(a) + Reported(b)
  {
    if b == [] {
      assert a + b == a;
    } else {
      var n := |b| - 1;
      assert (a + b)[..|a| + n] == a + b[..n];
      ReportedAppend(a, b[..n]);
    }
  }

  lemma ReportedOne(p: Payload)
    ensures Reported([p]) == match p
      case ToolStarted(call, _) => [call.callId]
      case ToolDenied(callId, _, _, _) => [callId]
      case _ => []
  {
    assert [p][..0] == [];
  }

  lemma {:induction false} EmissionsUnreported(emissions: seq<Emission>)
    ensures Reported(EmissionEvents(emissions)) == []
  {
    if emissions != [] {
      EmissionsUnreported(emissions[..|emissions| - 1]);
      ReportedAppend(EmissionEvents(emissions[..|emissions| - 1]), [Emitted(emissions[|emissions| - 1])]);
      ReportedOne(Emitted(emissions[|emissions| - 1]));
    }
  }

  /** A dispatched call is reported once, and one that was not run is not. */
  lemma RecordReported(r: CallRecord, steps: nat)
    ensures Reported(RecordEvents(r, steps)) == if r.Called? then [r.call.callId] else []
  {
    match r {
      case NotRun(_, _) =>
      case Called(call, Stopped(source, reason, _)) => ReportedOne(ToolDenied(call.callId, call.name, source, reason));
      case Called(call, Executed(result, emissions)) =>
        ReportedOne(ToolStarted(call, steps));
        EmissionsUnreported(emissions);
        ReportedOne(ToolFinished(result));
        ReportedAppend([ToolStarted(call, steps)], EmissionEvents(emissions));
        ReportedAppend([ToolStarted(call, steps)] + EmissionEvents(emissions), [ToolFinished(result)]);
    }
  }

  /** The events of these calls report exactly the first `m`, in order, and those are the ones that were dispatched. */
  predicate ReportsFirst(records: seq<CallRecord>, calls: seq<ToolCall>, steps: nat, m: nat) {
    && m <= |calls| == |records|
    && Reported(CallEvents(records, steps)) == Ids(calls[..m])
    && forall j :: 0 <= j < |records| ==> (records[j].Called? <==> j < m)
  }

  lemma {:induction false} CallsReported(records: seq<CallRecord>, calls: seq<ToolCall>, steps: nat)
    requires AllOf(records, calls) && RanFirst(records)
    ensures ReportsFirst(records, calls, steps, Dispatches(records))
  {
    if records != [] {
      var n := |records| - 1;
      CallsReported(records[..n], calls[..n], steps);
      OneMoreReported(records[..n], calls, steps, Dispatches(records[..n]), records[n]);
      assert records[..n] + [records[n]] == records;
    }
  }

  lemma OneMoreReported(before: seq<CallRecord>, calls: seq<ToolCall>, steps: nat, m: nat, r: CallRecord)
    requires |calls| == |before| + 1 && ReportsFirst(before, calls[..|before|], steps, m)
    requires r.call == calls[|before|] && (before != [] && before[|before| - 1].NotRun? ==> r.NotRun?)
    ensures ReportsFirst(before + [r], calls, steps, if r.Called? then m + 1 else m)
  {
    MoreReported(before, steps, r);
    if r.Called? {
      assert before != [] ==> before[|before| - 1].Called?;
      assert m == |before|;
      IdsGrow(calls, m);
    } else {
      assert calls[..|before|][..m] == calls[..m];
    }
  }

  lemma MoreReported(before: seq<CallRecord>, steps: nat, r: CallRecord)
    ensures Reported(CallEvents(before + [r], steps)) == Reported(CallEvents(before, steps)) + if r.Called? then [r.call.callId] else []
  {
    assert (before + [r])[..|before|] == before;
    RecordReported(r, steps);
    ReportedAppend(CallEvents(before, steps), RecordEvents(r, steps));
  }

  lemma IdsGrow(calls: seq<ToolCall>, m: nat)
    requires m < |calls|
    ensures Ids(calls[..m + 1]) == Ids(calls[..m][..m]) + [calls[m].callId]
  {
    assert calls[..m + 1][..m] == calls[..m] == calls[..m][..m];
  }

  /** The calls of a step that its events report are a prefix of those the model asked for. */
  predicate ReportsPrefix(r: StepRecord) {
    r.ToolStep? ==> ReportsFirst(r.calls, Collected(r.chunks, |r.chunks|).calls, r.steps, Dispatches(r.calls))
  }

  predicate ReportsAll(r: StepRecord) {
    r.ToolStep? ==> Dispatches(r.calls) == |r.calls|
  }

  predicate AllReport(records: seq<StepRecord>) {
    forall r <- records :: ReportsPrefix(r) && ReportsAll(r)
  }

  /** Every step reports a prefix of its calls; only the last step of a turn that has ended can leave calls out. */
  predicate WellReported(s: TurnState) {
    if s.records == [] || s.stop.None? then AllReport(s.records)
    else AllReport(s.records[..|s.records| - 1]) && ReportsPrefix(s.records[|s.records| - 1])
  }

  lemma StepReported(r: StepRecord, q: TurnState)
    requires Shaped(r) && Ordered(r, q)
    ensures ReportsPrefix(r) && (q.stop.None? ==> ReportsAll(r))
  {
    if r.ToolStep? {
      CallsReported(r.calls, Collected(r.chunks, |r.chunks|).calls, r.steps);
    }
  }

  lemma MovedReported(request: TurnRequest, s: TurnState, round: Round, r: Option<StepRecord>, q: TurnState)
    requires Moved(request, false, s, round, r, q) && WellReported(s)
    ensures WellReported(q)
  {
    if r.Some? {
      StepReported(r.value, q);
      assert (s.records + [r.value])[..|s.records|] == s.records;
    }
  }

  lemma {:induction false} PathReported(request: TurnRequest, engine: EngineState, rounds: seq<Round>, hops: seq<Hop>)
    requires Path(request, false, Start(engine), rounds, hops)
    ensures WellReported(Last(Start(engine), hops))
  {
    if hops != [] {
      var n := |hops| - 1;
      PathReported(request, engine, rounds, hops[..n]);
      MovedReported(request, Last(Start(engine), hops[..n]), rounds[n], hops[n].r, hops[n].q);
    }
  }

  /** In every turn, the calls that a step reports as started or denied are, in order, the first of those the model
      asked for, each once, and exactly those that were dispatched; none is left out but at the end of the turn. */
  lemma CallsAreReported(request: TurnRequest, setup: D.Setup, engine: EngineState, rounds: seq<Round>)
    ensures WellReported(Ended(request, setup, engine, rounds))
  {
    var s := StateAfter(request, setup, engine, rounds, |rounds|);
    var hops := PathTo(request, setup, engine, rounds, |rounds|, false, s);
    PathReported(request, engine, rounds, hops);
    EndsReported(s);
  }

  lemma EndsReported(s: TurnState)
    requires WellReported(s)
    ensures WellReported(s.(stop := Some(Cancelled)))
  {
    if s.records != [] && s.stop.None? {
      assert s.records[|s.records| - 1] in s.records;
      assert forall r <- s.records[..|s.records| - 1] :: r in s.records;
    }
  }
}
