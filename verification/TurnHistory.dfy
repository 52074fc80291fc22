/** What a turn writes into the history, told by what the model streamed and by the events of the turn
    (packages/core/src/turn.ts). */
module TurnHistory {
  import opened Text
  import opened Cost
  import opened Budget
  import opened Events
  import opened Session
  import opened Turn
  import opened TurnFacts
  import T = Truncate
  import H = Hooks
  import P = Permissions
  import D = Dispatch

  // ----- what the model streamed -----

  function SpokenText(chunks: seq<Chunk>): string {
    if chunks == [] then ""
    else
      var last := chunks[|chunks| - 1];
      SpokenText(chunks[..|chunks| - 1]) + if last.TextChunk? then last.text else ""
  }

  function AskedCalls(chunks: seq<Chunk>): seq<ToolCall> {
    if chunks == [] then []
    else
      var last := chunks[|chunks| - 1];
      AskedCalls(chunks[..|chunks| - 1]) + if last.CallChunk? then [last.call] else []
  }

  /** The last finish. */
  function Finish(chunks: seq<Chunk>): Option<(FinishReason, Usage)> {
    if chunks == [] then None
    else
      var last := chunks[|chunks| - 1];
      if last.FinishChunk? then Some((last.reason, last.usage)) else Finish(chunks[..|chunks| - 1])
  }

  /** One delta for a text that is not empty. */
  function DeltaFor(chunk: Chunk): seq<Payload> {
    if chunk.TextChunk? && chunk.text != "" then [TextDelta(chunk.text)] else []
  }

  function TextDeltas(chunks: seq<Chunk>): seq<Payload> {
    if chunks == [] then [] else TextDeltas(chunks[..|chunks| - 1]) + DeltaFor(chunks[|chunks| - 1])
  }

  lemma {:induction false} CollectedIs(chunks: seq<Chunk>, n: nat)
    requires n <= |chunks|
    ensures var s := Collected(chunks, n);
            && s.text == SpokenText(chunks[..n]) && s.calls == AskedCalls(chunks[..n])
            && s.usage == (match Finish(chunks[..n]) case Some((_, u)) => Some(u) case None => None)
            && s.finish == (match Finish(chunks[..n]) case Some((r, _)) => Some(r) case None => None)
  {
    if n > 0 {
      CollectedIs(chunks, n - 1);
      assert chunks[..n][..n - 1] == chunks[..n - 1];
    }
  }

  lemma {:induction false} DeltasAre(chunks: seq<Chunk>, n: nat)
    requires n <= |chunks|
    ensures Deltas(chunks, n) == TextDeltas(chunks[..n])
  {
    if n > 0 {
      DeltasAre(chunks, n - 1);
      assert chunks[..n][..n - 1] == chunks[..n - 1];
    }
  }

  lemma AllCollected(chunks: seq<Chunk>)
    ensures var s := Collected(chunks, |chunks|);
            && s.text == SpokenText(chunks) && s.calls == AskedCalls(chunks)
            && s.usage == (match Finish(chunks) case Some((_, u)) => Some(u) case None => None)
            && s.finish == (match Finish(chunks) case Some((r, _)) => Some(r) case None => None)
    ensures Deltas(chunks, |chunks|) == TextDeltas(chunks)
  {
    CollectedIs(chunks, |chunks|);
    DeltasAre(chunks, |chunks|);
    assert chunks[..|chunks|] == chunks;
  }

  // ----- reading events -----

  /** What an event is about: text, the count of a request, the start or the denial of a call, its finish or denial, or
      something that a tool emitted. */
  datatype Kind = OfText | OfUsage | OfHead | OfEnd | OfEmission

  predicate IsOf(kind: Kind, p: Payload) {
    match kind
    case OfText => p.TextDelta?
    case OfUsage => p.UsageUpdated?
    case OfHead => p.ToolStarted? || p.ToolDenied?
    case OfEnd => p.ToolFinished? || p.ToolDenied?
    case OfEmission => p.Emitted?
  }

  function Only(kind: Kind, events: seq<Payload>): seq<Payload> {
    if events == [] then []
    else
      var last := events[|events| - 1];
      Only(kind, events[..|events| - 1]) + if IsOf(kind, last) then [last] else []
  }

  lemma {:induction false} OnlyAppend(kind: Kind, a: seq<Payload>, b: seq<Payload>)
    ensures Only(kind, a + b) == Only(kind, a) + Only(kind, b)
  {
    if b == [] {
      assert a + b == a;
    } else {
      var n := |b| - 1;
      assert (a + b)[..|a| + n] == a + b[..n];
      OnlyAppend(kind, a, b[..n]);
    }
  }

  lemma OnlyOne(kind: Kind, p: Payload)
    ensures Only(kind, [p]) == if IsOf(kind, p) then [p] else []
  {
    assert [p][..0] == [];
  }

  lemma OnlyDelta(kind: Kind, chunk: Chunk)
    ensures Only(kind, DeltaFor(chunk)) == if kind.OfText? then DeltaFor(chunk) else []
  {
    if DeltaFor(chunk) != [] {
      OnlyOne(kind, TextDelta(chunk.text));
    }
  }

  lemma {:induction false} OnlyTextDeltas(kind: Kind, chunks: seq<Chunk>)
    ensures Only(kind, TextDeltas(chunks)) == if kind.OfText? then TextDeltas(chunks) else []
  {
    if chunks != [] {
      var n := |chunks| - 1;
      OnlyTextDeltas(kind, chunks[..n]);
      OnlyDelta(kind, chunks[n]);
      OnlyAppend(kind, TextDeltas(chunks[..n]), DeltaFor(chunks[n]));
    }
  }

  // ----- what a call leaves -----

  predicate SomeText(content: seq<T.Block>) {
    |content| == 1 && content[0].TextBlock? && content[0].text != ""
  }

  /** The message of a call whose end this event reports: what it was finished with, or that it was denied. */
  predicate Tells(end: Payload, call: ToolCall, m: Message) {
    && m.ToolMessage? && m.name == call.name
    && match end
       case ToolFinished(result) => m.callId == result.callId && m.ok == result.ok && m.content == result.content
       case ToolDenied(callId, name, _, _) => callId == m.callId == call.callId && name == call.name && !m.ok && SomeText(m.content)
       case _ => false
  }

  /** The message of a call that was not run. */
  predicate Unrun(call: ToolCall, m: Message) {
    m.ToolMessage? && m.callId == call.callId && m.name == call.name && !m.ok && SomeText(m.content)
  }

  /** A call is started, and then it is finished; or it is denied. */
  predicate Begins(head: Payload, end: Payload, call: ToolCall, steps: nat) {
    if head.ToolStarted? then head == ToolStarted(call, steps) && end.ToolFinished? else head.ToolDenied? && head == end
  }

  /** The messages answer the calls in order: the first as their ends are reported, the others as not run. */
  predicate AnswersTold(calls: seq<ToolCall>, answers: seq<Message>, heads: seq<Payload>, ends: seq<Payload>, steps: nat) {
    && |answers| == |calls| && |heads| == |ends| <= |calls|
    && (forall i :: 0 <= i < |ends| ==> Begins(heads[i], ends[i], calls[i], steps) && Tells(ends[i], calls[i], answers[i]))
    && (forall i :: |ends| <= i < |calls| ==> Unrun(calls[i], answers[i]))
  }

  /** The user, asked about the call, aborted the turn. */
  predicate AbortedBy(end: Payload) {
    end.ToolDenied? && end.source.Gate? && end.reason.UserAborted?
  }

  /** The calls are dispatched one behind the other up to the first at which the signal is up or behind which the turn was aborted. */
  predicate CutShort(count: nat, ends: seq<Payload>, answers: nat -> CallAnswer) {
    && (forall i :: 0 <= i < |ends| ==> !answers(i).aborted && (i > 0 ==> !AbortedBy(ends[i - 1])))
    && (|ends| < count ==> answers(|ends|).aborted || (ends != [] && AbortedBy(ends[|ends| - 1])))
  }

  lemma {:induction false} EmissionsOnly(kind: Kind, emissions: seq<Emission>)
    ensures Only(kind, EmissionEvents(emissions)) == if kind.OfEmission? then EmissionEvents(emissions) else []
  {
    if emissions != [] {
      var n := |emissions| - 1;
      EmissionsOnly(kind, emissions[..n]);
      OnlyAppend(kind, EmissionEvents(emissions[..n]), [Emitted(emissions[n])]);
      OnlyOne(kind, Emitted(emissions[n]));
    }
  }

  /** What one call's events show. */
  function Head(r: CallRecord, steps: nat): seq<Payload> {
    match r
    case NotRun(_, _) => []
    case Called(call, Stopped(source, reason, _)) => [ToolDenied(call.callId, call.name, source, reason)]
    case Called(call, Executed(_, _)) => [ToolStarted(call, steps)]
  }

  function End(r: CallRecord): seq<Payload> {
    match r
    case NotRun(_, _) => []
    case Called(call, Stopped(source, reason, _)) => [ToolDenied(call.callId, call.name, source, reason)]
    case Called(_, Executed(result, _)) => [ToolFinished(result)]
  }

  lemma ExecutedShows(kind: Kind, first: Payload, emissions: seq<Emission>, last: Payload)
    ensures Only(kind, [first] + EmissionEvents(emissions) + [last])
         == (if IsOf(kind, first) then [first] else [])
            + (if kind.OfEmission? then EmissionEvents(emissions) else [])
            + (if IsOf(kind, last) then [last] else [])
  {
    OnlyOne(kind, first);
    OnlyOne(kind, last);
    EmissionsOnly(kind, emissions);
    OnlyAppend(kind, [first], EmissionEvents(emissions));
    OnlyAppend(kind, [first] + EmissionEvents(emissions), [last]);
  }

  predicate Shows(events: seq<Payload>, head: seq<Payload>, end: seq<Payload>) {
    Only(OfHead, events) == head && Only(OfEnd, events) == end && Only(OfText, events) == [] && Only(OfUsage, events) == []
  }

  lemma DeniedShows(p: Payload)
    requires p.ToolDenied?
    ensures Shows([p], [p], [p])
  {
    OnlyOne(OfHead, p);
    OnlyOne(OfEnd, p);
    OnlyOne(OfText, p);
    OnlyOne(OfUsage, p);
  }

  lemma StartedShows(first: Payload, emissions: seq<Emission>, last: Payload)
    requires first.ToolStarted? && last.ToolFinished?
    ensures Shows([first] + EmissionEvents(emissions) + [last], [first], [last])
  {
    ExecutedShows(OfHead, first, emissions, last);
    ExecutedShows(OfEnd, first, emissions, last);
    ExecutedShows(OfText, first, emissions, last);
    ExecutedShows(OfUsage, first, emissions, last);
  }

  lemma RecordShows(r: CallRecord, steps: nat)
    ensures Shows(RecordEvents(r, steps), Head(r, steps), End(r))
  {
    match r {
      case NotRun(_, _) =>
      case Called(call, Stopped(source, reason, _)) => DeniedShows(ToolDenied(call.callId, call.name, source, reason));
      case Called(call, Executed(result, emissions)) => StartedShows(ToolStarted(call, steps), emissions, ToolFinished(result));
    }
  }

  lemma RecordTells(r: CallRecord, steps: nat)
    ensures r.NotRun? ==> Unrun(r.call, MessageOf(r))
    ensures r.Called? ==> |Head(r, steps)| == |End(r)| == 1
    ensures r.Called? ==> Begins(Head(r, steps)[0], End(r)[0], r.call, steps) && Tells(End(r)[0], r.call, MessageOf(r))
  {}

  lemma ShowsMore(a: seq<Payload>, heads: seq<Payload>, ends: seq<Payload>, b: seq<Payload>, head: seq<Payload>, end: seq<Payload>)
    requires Shows(a, heads, ends) && Shows(b, head, end)
    ensures Shows(a + b, heads + head, ends + end)
  {
    OnlyAppend(OfHead, a, b);
    OnlyAppend(OfEnd, a, b);
    OnlyAppend(OfText, a, b);
    OnlyAppend(OfUsage, a, b);
  }

  lemma CallsShow(records: seq<CallRecord>, steps: nat, heads: seq<Payload>, ends: seq<Payload>)
    requires records != [] && Shows(CallEvents(records[..|records| - 1], steps), heads, ends)
    ensures Shows(CallEvents(records, steps), heads + Head(records[|records| - 1], steps), ends + End(records[|records| - 1]))
  {
    var n := |records| - 1;
    RecordShows(records[n], steps);
    ShowsMore(CallEvents(records[..n], steps), heads, ends, RecordEvents(records[n], steps), Head(records[n], steps), End(records[n]));
  }

  /** The calls of a step, as far as `records` go. */
  lemma {:induction false} RecordsTold(records: seq<CallRecord>, calls: seq<ToolCall>, steps: nat) returns (heads: seq<Payload>, ends: seq<Payload>)
    requires AllOf(records, calls) && RanFirst(records)
    ensures Shows(CallEvents(records, steps), heads, ends)
    ensures AnswersTold(calls, MessagesOf(records), heads, ends, steps) && (EndsUnrun(records) <==> |ends| < |calls|)
  {
    heads, ends := [], [];
    if records != [] {
      var n := |records| - 1;
      heads, ends := RecordsTold(records[..n], calls[..n], steps);
      CallsShow(records, steps, heads, ends);
      RecordTells(records[n], steps);
      OneMoreTold(calls, MessagesOf(records[..n]), heads, ends, steps, records[n], n > 0 && records[n - 1].NotRun?);
      heads, ends := heads + Head(records[n], steps), ends + End(records[n]);
    }
  }

  /** The ends of the calls that were dispatched, and behind them only calls that were not. */
  predicate EndsAre(records: seq<CallRecord>, ends: seq<Payload>) {
    && |ends| <= |records|
    && (forall i :: 0 <= i < |ends| ==> records[i].Called? && End(records[i]) == [ends[i]])
    && (forall i :: |ends| <= i < |records| ==> records[i].NotRun?)
  }

  lemma {:induction false} EndsOf(records: seq<CallRecord>, steps: nat)
    requires RanFirst(records)
    ensures EndsAre(records, Only(OfEnd, CallEvents(records, steps)))
  {
    if records != [] {
      var n := |records| - 1;
      EndsOf(records[..n], steps);
      RecordShows(records[n], steps);
      OnlyAppend(OfEnd, CallEvents(records[..n], steps), RecordEvents(records[n], steps));
      OneMoreEnd(records, Only(OfEnd, CallEvents(records[..n], steps)));
    }
  }

  lemma OneMoreEnd(records: seq<CallRecord>, ends: seq<Payload>)
    requires records != [] && RanFirst(records) && EndsAre(records[..|records| - 1], ends)
    ensures EndsAre(records, ends + End(records[|records| - 1]))
  {
    var n := |records| - 1;
    if |ends| < n {
      LastUnrun(records[..n], ends);
    }
    EndAdded(records[..n], ends, records[n]);
    assert records[..n] + [records[n]] == records;
  }

  lemma LastUnrun(records: seq<CallRecord>, ends: seq<Payload>)
    requires EndsAre(records, ends) && |ends| < |records|
    ensures records[|records| - 1].NotRun?
  {}

  lemma EndAdded(records: seq<CallRecord>, ends: seq<Payload>, r: CallRecord)
    requires EndsAre(records, ends) && (|ends| < |records| ==> r.NotRun?)
    ensures EndsAre(records + [r], ends + End(r))
  {
    assert forall i :: 0 <= i < |records| ==> (records + [r])[i] == records[i];
    assert forall i :: 0 <= i < |ends| ==> (ends + End(r))[i] == ends[i];
  }

  lemma AbortEnds(r: CallRecord, end: Payload)
    requires r.Called? && D.StopsFairly(r.outcome) && End(r) == [end]
    ensures EndsWith(r) <==> AbortedBy(end)
  {
    assert end == End(r)[0];
  }

  lemma CutAt(records: seq<CallRecord>, ends: seq<Payload>, answers: nat -> CallAnswer, i: nat)
    requires AllFair(records) && Signalled(records, answers) && EndsAre(records, ends) && i <= |ends| && i < |records|
    ensures i == |ends| <==> answers(i).aborted || (i > 0 && AbortedBy(ends[i - 1]))
  {
    SignalledAt(records, answers, i);
    assert i < |ends| <==> records[i].Called?;
    if i > 0 {
      AbortEnds(records[i - 1], ends[i - 1]);
    }
  }

  lemma CutShortIs(records: seq<CallRecord>, ends: seq<Payload>, answers: nat -> CallAnswer)
    requires AllFair(records) && Signalled(records, answers) && EndsAre(records, ends)
    ensures CutShort(|records|, ends, answers)
  {
    forall i | 0 <= i < |ends| ensures !answers(i).aborted && (i > 0 ==> !AbortedBy(ends[i - 1])) {
      CutAt(records, ends, answers, i);
      assert i != |ends|;
    }
    if |ends| < |records| {
      CutAt(records, ends, answers, |ends|);
    }
  }

  lemma OneMoreTold(calls: seq<ToolCall>, answers: seq<Message>, heads: seq<Payload>, ends: seq<Payload>, steps: nat, r: CallRecord, unrun: bool)
    requires |calls| == |answers| + 1 && AnswersTold(calls[..|answers|], answers, heads, ends, steps)
    requires r.call == calls[|answers|] && (unrun <==> |ends| < |answers|) && (unrun ==> r.NotRun?)
    requires r.NotRun? ==> Unrun(r.call, MessageOf(r))
    requires r.Called? ==> |Head(r, steps)| == |End(r)| == 1
                           && Begins(Head(r, steps)[0], End(r)[0], r.call, steps) && Tells(End(r)[0], r.call, MessageOf(r))
    ensures AnswersTold(calls, answers + [MessageOf(r)], heads + Head(r, steps), ends + End(r), steps)
    ensures r.NotRun? <==> |ends + End(r)| < |calls|
  {
    var n := |answers|;
    var all, allHeads, allEnds := answers + [MessageOf(r)], heads + Head(r, steps), ends + End(r);
    assert forall i :: 0 <= i < n ==> calls[..n][i] == calls[i] && all[i] == answers[i];
    assert all[n] == MessageOf(r);
    assert forall i :: 0 <= i < |ends| ==> allEnds[i] == ends[i] && allHeads[i] == heads[i];
  }

  /** What the tools of these calls emitted, one behind the other. */
  function EmissionsOf(records: seq<CallRecord>): seq<Emission> {
    if records == [] then []
    else
      var n := |records| - 1;
      EmissionsOf(records[..n]) + if records[n].Called? && records[n].outcome.Executed? then records[n].outcome.emissions else []
  }

  predicate ShowsEach(events: seq<Payload>, emissions: seq<Emission>) {
    |events| == |emissions| && forall i :: 0 <= i < |events| ==> events[i] == Emitted(emissions[i])
  }

  lemma {:induction false} EventsShowEach(emissions: seq<Emission>)
    ensures ShowsEach(EmissionEvents(emissions), emissions)
  {
    if emissions != [] {
      EventsShowEach(emissions[..|emissions| - 1]);
    }
  }

  lemma RecordShowsEach(r: CallRecord, steps: nat)
    ensures ShowsEach(Only(OfEmission, RecordEvents(r, steps)), if r.Called? && r.outcome.Executed? then r.outcome.emissions else [])
  {
    match r {
      case NotRun(_, _) =>
      case Called(call, Stopped(source, reason, _)) => OnlyOne(OfEmission, ToolDenied(call.callId, call.name, source, reason));
      case Called(call, Executed(result, emissions)) =>
        ExecutedShows(OfEmission, ToolStarted(call, steps), emissions, ToolFinished(result));
        EventsShowEach(emissions);
    }
  }

  /** Everything that tools emit is shown, in order, and nothing else. */
  lemma {:induction false} EmissionsAreShown(records: seq<CallRecord>, steps: nat)
    ensures ShowsEach(Only(OfEmission, CallEvents(records, steps)), EmissionsOf(records))
  {
    if records != [] {
      var n := |records| - 1;
      EmissionsAreShown(records[..n], steps);
      RecordShowsEach(records[n], steps);
      OnlyAppend(OfEmission, CallEvents(records[..n], steps), RecordEvents(records[n], steps));
    }
  }

  // ----- what a request leaves -----

  /** The messages and the events of one request. */
  datatype Leaving = Leaving(messages: seq<Message>, events: seq<Payload>)

  /** What the model said and asked for, as a message. */
  predicate Speaks(chunks: seq<Chunk>, m: Message) {
    && m.AssistantMessage? && m.toolCalls == AskedCalls(chunks)
    && m.content == if SpokenText(chunks) == "" then [] else [T.TextBlock(SpokenText(chunks))]
  }

  /** A request that is the `steps`-th to be answered in full, with the usage counted by then: its deltas are what was
      streamed; when the stream fails nothing else is left; otherwise it is counted once; and unless the signal came up
      meanwhile, what the model said is appended, with an answer to each call it asked for. */
  predicate StepTold(model: string, round: Round, usage: Usage, steps: nat, step: Leaving) {
    && Only(OfText, step.events) == TextDeltas(round.answer.chunks)
    && Only(OfUsage, step.events) == (if round.answer.throws then [] else [UsageUpdated(model, usage, steps)])
    && if round.answer.throws || round.abortedAfter then step.messages == [] && Only(OfHead, step.events) == [] && Only(OfEnd, step.events) == []
       else
         && step.messages != [] && Speaks(round.answer.chunks, step.messages[0])
         && AnswersTold(AskedCalls(round.answer.chunks), step.messages[1..], Only(OfHead, step.events), Only(OfEnd, step.events), steps)
         && CutShort(|AskedCalls(round.answer.chunks)|, Only(OfEnd, step.events), round.calls)
  }

  /** What a record of the request holds in common with it. */
  predicate IsFor(round: Round, r: StepRecord) {
    r.chunks == round.answer.chunks && Shaped(r) && (r.ToolStep? ==> RanFirst(r.calls) && AllFair(r.calls) && Signalled(r.calls, round.calls))
    && (r.FailedStep? <==> round.answer.throws) && (r.CancelledStep? <==> !round.answer.throws && round.abortedAfter)
  }

  predicate CountsOnly(events: seq<Payload>, deltas: seq<Payload>, last: Payload) {
    Only(OfText, events) == deltas && Only(OfUsage, events) == [last] && Only(OfHead, events) == [] && Only(OfEnd, events) == []
  }

  lemma CountedOnly(kind: Kind, chunks: seq<Chunk>, last: Payload)
    requires last.UsageUpdated?
    ensures Only(kind, TextDeltas(chunks) + [last])
         == (if kind.OfText? then TextDeltas(chunks) else []) + (if kind.OfUsage? then [last] else [])
  {
    OnlyOne(kind, last);
    OnlyTextDeltas(kind, chunks);
    OnlyAppend(kind, TextDeltas(chunks), [last]);
  }

  lemma DeltasThenCount(chunks: seq<Chunk>, last: Payload)
    requires last.UsageUpdated?
    ensures CountsOnly(TextDeltas(chunks) + [last], TextDeltas(chunks), last)
  {
    CountedOnly(OfText, chunks, last);
    CountedOnly(OfUsage, chunks, last);
    CountedOnly(OfHead, chunks, last);
    CountedOnly(OfEnd, chunks, last);
    NoneMore(TextDeltas(chunks), [last]);
  }

  lemma CountedShows(model: string, chunks: seq<Chunk>, usage: Usage, steps: nat)
    ensures CountsOnly(Counted(model, chunks, usage, steps), TextDeltas(chunks), UsageUpdated(model, usage, steps))
  {
    AllCollected(chunks);
    DeltasThenCount(chunks, UsageUpdated(model, usage, steps));
  }

  lemma SpokenSpeaks(chunks: seq<Chunk>)
    ensures Speaks(chunks, Spoken(Collected(chunks, |chunks|)))
  {
    AllCollected(chunks);
  }

  /** What is told of a request with calls. */
  predicate CallsTold(events: seq<Payload>, deltas: seq<Payload>, last: Payload, heads: seq<Payload>, ends: seq<Payload>) {
    Only(OfText, events) == deltas && Only(OfUsage, events) == [last] && Only(OfHead, events) == heads && Only(OfEnd, events) == ends
  }

  lemma CountedThenShown(counted: seq<Payload>, deltas: seq<Payload>, last: Payload, called: seq<Payload>, heads: seq<Payload>, ends: seq<Payload>)
    requires CountsOnly(counted, deltas, last) && Shows(called, heads, ends)
    ensures CallsTold(counted + called, deltas, last, heads, ends)
  {
    OnlyAppend(OfText, counted, called);
    OnlyAppend(OfUsage, counted, called);
    OnlyAppend(OfHead, counted, called);
    OnlyAppend(OfEnd, counted, called);
    NoneMore(deltas, [last]);
    NoneMore(heads, ends);
  }

  lemma ToolsShow(model: string, round: Round, r: StepRecord) returns (heads: seq<Payload>, ends: seq<Payload>)
    requires r.ToolStep? && IsFor(round, r)
    ensures CallsTold(StepEvents(model, r), TextDeltas(r.chunks), UsageUpdated(model, r.usage, r.steps), heads, ends)
    ensures AnswersTold(AskedCalls(r.chunks), MessagesOf(r.calls), heads, ends, r.steps) && CutShort(|AskedCalls(r.chunks)|, ends, round.calls)
    ensures EndsUnrun(r.calls) <==> |ends| < |AskedCalls(r.chunks)|
    ensures ends == Only(OfEnd, CallEvents(r.calls, r.steps))
  {
    AllCollected(r.chunks);
    CountedShows(model, r.chunks, r.usage, r.steps);
    heads, ends := RecordsTold(r.calls, AskedCalls(r.chunks), r.steps);
    EndsOf(r.calls, r.steps);
    CutShortIs(r.calls, ends, round.calls);
    assert |r.calls| == |AskedCalls(r.chunks)|;
    CountedThenShown(Counted(model, r.chunks, r.usage, r.steps), TextDeltas(r.chunks), UsageUpdated(model, r.usage, r.steps),
                     CallEvents(r.calls, r.steps), heads, ends);
  }

  lemma ToolsTold(model: string, round: Round, r: StepRecord)
    requires r.ToolStep? && IsFor(round, r)
    ensures StepTold(model, round, r.usage, r.steps, Leaving(StepMessages(r), StepEvents(model, r)))
  {
    var heads, ends := ToolsShow(model, round, r);
    SpokenSpeaks(r.chunks);
    DropPrefix([Spoken(Collected(r.chunks, |r.chunks|))], MessagesOf(r.calls));
  }

  lemma NoneMore(a: seq<Payload>, b: seq<Payload>)
    ensures a + [] == a && b + [] == b && forall c: seq<Payload> :: [] + c == c
  {}

  lemma RecordToldBy(model: string, round: Round, r: StepRecord, usage: Usage, steps: nat)
    requires IsFor(round, r) && (!r.FailedStep? ==> r.usage == usage && r.steps == steps)
    ensures StepTold(model, round, usage, steps, Leaving(StepMessages(r), StepEvents(model, r)))
  {
    match r {
      case FailedStep(chunks) =>
        AllCollected(chunks);
        OnlyTextDeltas(OfText, chunks);
        OnlyTextDeltas(OfUsage, chunks);
        OnlyTextDeltas(OfHead, chunks);
        OnlyTextDeltas(OfEnd, chunks);
      case CancelledStep(chunks, _, _) => CountedShows(model, chunks, usage, steps);
      case SpokenStep(chunks, _, _) =>
        AllCollected(chunks);
        SpokenSpeaks(chunks);
        assert CutShort(0, [], round.calls);
        CountedShows(model, chunks, usage, steps);
      case ToolStep(_, _, _, _) => ToolsTold(model, round, r);
    }
  }

  // ----- what a turn leaves -----

  function MessagesIn(steps: seq<Leaving>): seq<Message> {
    if steps == [] then [] else MessagesIn(steps[..|steps| - 1]) + steps[|steps| - 1].messages
  }

  function EventsIn(steps: seq<Leaving>): seq<Payload> {
    if steps == [] then [] else EventsIn(steps[..|steps| - 1]) + steps[|steps| - 1].events
  }

  /** What the streams of the first `n` rounds reported. */
  function Reports(rounds: seq<Round>, n: nat): seq<Usage>
    requires n <= |rounds|
  {
    if n == 0 then []
    else Reports(rounds, n - 1) + match Finish(rounds[n - 1].answer.chunks)
      case Some((_, usage)) => if rounds[n - 1].answer.throws then [] else [usage]
      case None => []
  }

  predicate AbortShown(ends: seq<Payload>) {
    exists i :: 0 <= i < |ends| && AbortedBy(ends[i])
  }

  /** How a request leaves the turn: with an error when the stream fails; cancelled when the signal came up meanwhile; at its
      end when the model asks for no call, with an error if it says so; refused when the user aborts; cancelled when a call was
      not run; and otherwise under way. */
  predicate GoesWith(round: Round, step: Leaving, stop: Option<StopReason>) {
    var chunks, ends := round.answer.chunks, Only(OfEnd, step.events);
    stop == if round.answer.throws then Some(Error)
            else if round.abortedAfter then Some(Cancelled)
            else if AskedCalls(chunks) == [] then Some(if Finish(chunks).Some? && Finish(chunks).value.0 == ErrorFinish then Error else EndTurn)
            else if AbortShown(ends) then Some(Refused)
            else if |ends| < |AskedCalls(chunks)| then Some(Cancelled)
            else None
  }

  /** So does the last request. */
  predicate Goes(rounds: seq<Round>, steps: seq<Leaving>, stop: Option<StopReason>) {
    0 < |steps| <= |rounds| && GoesWith(rounds[|steps| - 1], steps[|steps| - 1], stop)
  }

  /** A turn under way, told request by request. Request `k` is made in round `k`. */
  ghost predicate Told(request: TurnRequest, rounds: seq<Round>, s: TurnState, steps: seq<Leaving>) {
    && Left(request.model, s.records, steps) && |steps| <= |rounds|
    && forall k :: 0 <= k < |steps| ==> StepToldAt(request, rounds, steps, k)
  }

  /** The usage counted by the `k`-th request. */
  function UsageBy(rounds: seq<Round>, k: nat): Usage
    requires k <= |rounds|
  {
    Accumulated(Reports(rounds, k))
  }

  ghost predicate StepToldAt(request: TurnRequest, rounds: seq<Round>, steps: seq<Leaving>, k: nat) {
    && k < |steps| <= |rounds| && WhyBefore(request, UsageBy(rounds, k), k, rounds[k]).None?
    && StepTold(request.model, rounds[k], UsageBy(rounds, k + 1), k + 1, steps[k])
  }

  /** Why the turn stops before a request, when `steps` have been answered with this usage: the signal is up, or a
      ceiling is reached. */
  function WhyBefore(request: TurnRequest, usage: Usage, steps: nat, round: Round): Option<StopReason> {
    if round.aborted then Some(Cancelled)
    else if !StepsLeft(request.budget, steps) then Some(MaxSteps)
    else if TokensLeft(request.budget, usage) && TimeLeft(request.budget, request.startedAt, round.now) && MoneyLeft(request.budget, request.prices, usage)
    then None
    else Some(BudgetExhausted)
  }

  predicate StepsLeft(budget: TurnBudget, steps: nat) {
    budget.maxSteps.Some? ==> steps < budget.maxSteps.value
  }

  predicate TokensLeft(budget: TurnBudget, usage: Usage) {
    budget.maxTokens.Some? ==> usage.inputTokens + usage.cachedInputTokens + usage.outputTokens < budget.maxTokens.value
  }

  predicate TimeLeft(budget: TurnBudget, startedAt: int, now: int) {
    budget.maxWallClockMs.Some? ==> now < startedAt + budget.maxWallClockMs.value
  }

  /** Prices are those of a million tokens. */
  predicate MoneyLeft(budget: TurnBudget, prices: Option<PriceSheet>, usage: Usage) {
    budget.maxSpendUsd.Some? ==>
      match prices
      case None => 0.0 < budget.maxSpendUsd.value
      case Some(p) => usage.inputTokens as real * p.input + usage.cachedInputTokens as real * p.cachedInput + usage.outputTokens as real * p.output
                      < budget.maxSpendUsd.value * 1000000.0
  }

  lemma MoneyLeftIs(s: Tracked, now: int)
    ensures !Reached(s, now, Budget.Spend) <==> MoneyLeft(s.budget, s.prices, s.usage)
  {
    if s.prices.Some? {
      PriceIs(s.usage, s.prices.value);
    }
  }

  lemma PreflightIs(request: TurnRequest, s: TurnState, round: Round)
    ensures Preflight(request, s, round) == WhyBefore(request, s.usage, s.steps, round)
  {
    var t := TrackedBy(request, s);
    EveryKind(t, round.now);
    MoneyLeftIs(t, round.now);
    assert TotalTokens(t.usage) == t.usage.inputTokens + t.usage.cachedInputTokens + t.usage.outputTokens;
  }

  /** How many of the first `m` requests were answered in full: a stream that fails is the last. */
  function AnsweredOf(rounds: seq<Round>, m: nat): nat
    requires m <= |rounds|
  {
    if m > 0 && rounds[m - 1].answer.throws then m - 1 else m
  }

  predicate Counts(rounds: seq<Round>, s: TurnState, m: nat) {
    m <= |rounds| && s.usage == UsageBy(rounds, m) && s.steps == AnsweredOf(rounds, m)
  }

  /** Where a run stands after `n` rounds: while it goes on, it has made a request in each of them. */
  predicate Stands(request: TurnRequest, rounds: seq<Round>, n: nat, s: TurnState, steps: seq<Leaving>) {
    && |steps| <= n <= |rounds| && Counts(rounds, s, |steps|)
    && if s.stop.None? then |steps| == n && (steps == [] || Goes(rounds, steps, None))
       else StopsBecause(request, rounds, n, steps, s.stop.value)
  }

  /** It stopped because of the last request, or before another one. */
  predicate StopsBecause(request: TurnRequest, rounds: seq<Round>, n: nat, steps: seq<Leaving>, stop: StopReason) {
    || Goes(rounds, steps, Some(stop))
    || (&& |steps| < n <= |rounds| && (steps == [] || Goes(rounds, steps, None))
        && WhyBefore(request, UsageBy(rounds, |steps|), |steps|, rounds[|steps|]) == Some(stop))
  }

  lemma {:induction false} AbortsShown(records: seq<CallRecord>, steps: nat)
    requires AllFair(records)
    ensures Aborts(records) <==> AbortShown(Only(OfEnd, CallEvents(records, steps)))
  {
    if records != [] {
      var n := |records| - 1;
      AbortsShown(records[..n], steps);
      RecordShows(records[n], steps);
      OnlyAppend(OfEnd, CallEvents(records[..n], steps), RecordEvents(records[n], steps));
      OneMoreAborts(records[..n], Only(OfEnd, CallEvents(records[..n], steps)), records[n]);
      assert records[..n] + [records[n]] == records;
    }
  }

  lemma OneMoreAborts(records: seq<CallRecord>, ends: seq<Payload>, r: CallRecord)
    requires Aborts(records) <==> AbortShown(ends)
    requires r.Called? ==> D.StopsFairly(r.outcome)
    ensures Aborts(records + [r]) <==> AbortShown(ends + End(r))
  {
    var all, more := records + [r], ends + End(r);
    assert all[|records|] == r;
    assert forall i :: 0 <= i < |records| ==> all[i] == records[i];
    assert forall i :: 0 <= i < |ends| ==> more[i] == ends[i];
    assert r.Called? ==> more[|ends|] == End(r)[0];
  }

  lemma UsageNext(rounds: seq<Round>, n: nat, usage: Usage)
    requires n < |rounds| && usage == UsageBy(rounds, n)
    ensures UsageBy(rounds, n + 1) == if rounds[n].answer.throws then usage else WithUsage(usage, Collected(rounds[n].answer.chunks, |rounds[n].answer.chunks|))
  {
    AllCollected(rounds[n].answer.chunks);
    var before, all := Reports(rounds, n), Reports(rounds, n + 1);
    assert rounds[n].answer.throws ==> all == before;
    match Finish(rounds[n].answer.chunks) {
      case None => assert all == before;
      case Some((_, u)) => assert !rounds[n].answer.throws ==> all[..|before|] == before;
    }
  }

  lemma LeavingNext(steps: seq<Leaving>, t: Leaving)
    ensures MessagesIn(steps + [t]) == MessagesIn(steps) + t.messages && EventsIn(steps + [t]) == EventsIn(steps) + t.events
  {
    assert (steps + [t])[..|steps|] == steps;
  }

  lemma ToldStill(request: TurnRequest, rounds: seq<Round>, steps: seq<Leaving>, t: Leaving, k: nat)
    requires StepToldAt(request, rounds, steps, k) && |steps| < |rounds|
    ensures StepToldAt(request, rounds, steps + [t], k)
  {
    assert (steps + [t])[k] == steps[k];
  }

  lemma RecordsNext(model: string, records: seq<StepRecord>, r: StepRecord)
    ensures AllMessages(records + [r]) == AllMessages(records) + StepMessages(r)
    ensures AllEvents(model, records + [r]) == AllEvents(model, records) + StepEvents(model, r)
  {
    assert (records + [r])[..|records|] == records;
  }

  /** What the turn has left is what its requests left. */
  predicate Left(model: string, records: seq<StepRecord>, steps: seq<Leaving>) {
    |steps| == |records| && MessagesIn(steps) == AllMessages(records) && EventsIn(steps) == AllEvents(model, records)
  }

  lemma LeftNext(model: string, records: seq<StepRecord>, steps: seq<Leaving>, r: StepRecord, t: Leaving)
    requires Left(model, records, steps) && t.messages == StepMessages(r) && t.events == StepEvents(model, r)
    ensures Left(model, records + [r], steps + [t])
  {
    LeavingNext(steps, t);
    RecordsNext(model, records, r);
  }

  lemma AllToldNext(request: TurnRequest, rounds: seq<Round>, steps: seq<Leaving>, t: Leaving)
    requires |steps| < |rounds| && StepToldAt(request, rounds, steps + [t], |steps|)
    requires forall k :: 0 <= k < |steps| ==> StepToldAt(request, rounds, steps, k)
    ensures forall k :: 0 <= k < |steps| + 1 ==> StepToldAt(request, rounds, steps + [t], k)
  {
    forall k | 0 <= k < |steps| ensures StepToldAt(request, rounds, steps + [t], k) {
      ToldStill(request, rounds, steps, t, k);
    }
  }

  /** What is known of a record and of what the turn does then. */
  predicate Closes(r: StepRecord, stop: Option<StopReason>) {
    && (r.FailedStep? ==> stop == Some(Error)) && (r.CancelledStep? ==> stop == Some(Cancelled))
    && (r.SpokenStep? ==> stop == Some(if Collected(r.chunks, |r.chunks|).finish == Some(ErrorFinish) then Error else EndTurn))
    && (r.ToolStep? ==>
          && Collected(r.chunks, |r.chunks|).calls != [] && AllFair(r.calls)
          && stop == if Aborts(r.calls) then Some(Refused) else if EndsUnrun(r.calls) then Some(Cancelled) else None)
  }

  lemma RecordIsFor(request: TurnRequest, s: TurnState, round: Round, r: StepRecord, q: TurnState)
    requires Moved(request, false, s, round, Some(r), q) && s.stop.None?
    ensures IsFor(round, r) && WhyBefore(request, s.usage, s.steps, round).None? && q.records == s.records + [r]
    ensures CountsOn(s, r, q) && Closes(r, q.stop)
  {
    PreflightIs(request, s, round);
  }

  /** What a request adds to the counts. */
  predicate CountsOn(s: TurnState, r: StepRecord, q: TurnState) {
    if r.FailedStep? then q.usage == s.usage && q.steps == s.steps
    else r.steps == s.steps + 1 == q.steps && r.usage == WithUsage(s.usage, Collected(r.chunks, |r.chunks|)) == q.usage
  }

  lemma ToolsGo(model: string, round: Round, r: StepRecord, stop: Option<StopReason>)
    requires r.ToolStep? && IsFor(round, r) && Closes(r, stop)
    ensures GoesWith(round, Leaving(StepMessages(r), StepEvents(model, r)), stop)
  {
    var heads, ends := ToolsShow(model, round, r);
    AllCollected(r.chunks);
    AbortsShown(r.calls, r.steps);
  }

  /** How a request leaves the turn, told by its record. */
  lemma RecordGoes(model: string, round: Round, r: StepRecord, stop: Option<StopReason>)
    requires IsFor(round, r) && Closes(r, stop)
    ensures GoesWith(round, Leaving(StepMessages(r), StepEvents(model, r)), stop)
  {
    AllCollected(r.chunks);
    if r.ToolStep? {
      ToolsGo(model, round, r, stop);
    }
  }

  /** One round more. */
  lemma HopTold(request: TurnRequest, rounds: seq<Round>, n: nat, s: TurnState, steps: seq<Leaving>, r: Option<StepRecord>, q: TurnState)
    returns (more: seq<Leaving>)
    requires n < |rounds| && Told(request, rounds, s, steps) && Stands(request, rounds, n, s, steps)
    requires Moved(request, false, s, rounds[n], r, q)
    ensures Told(request, rounds, q, more) && Stands(request, rounds, n + 1, q, more)
  {
    more := steps;
    PreflightIs(request, s, rounds[n]);
    if s.stop.None? && r.Some? {
      more := StepAdded(request, rounds, n, s, steps, r.value, q);
    }
  }

  lemma StandsNext(request: TurnRequest, rounds: seq<Round>, n: nat, s: TurnState, steps: seq<Leaving>, q: TurnState, t: Leaving)
    requires n < |rounds| && Stands(request, rounds, n, s, steps) && s.stop.None? && |steps| == |s.records| && |q.records| == |s.records| + 1
    requires GoesWith(rounds[n], t, q.stop)
    requires q.usage == UsageBy(rounds, n + 1) && q.steps == if rounds[n].answer.throws then s.steps else s.steps + 1
    ensures Stands(request, rounds, n + 1, q, steps + [t])
  {
    assert (steps + [t])[|steps|] == t;
  }

  lemma ToldHere(request: TurnRequest, rounds: seq<Round>, steps: seq<Leaving>, t: Leaving)
    requires |steps| < |rounds| && WhyBefore(request, UsageBy(rounds, |steps|), |steps|, rounds[|steps|]).None?
    requires StepTold(request.model, rounds[|steps|], UsageBy(rounds, |steps| + 1), |steps| + 1, t)
    ensures StepToldAt(request, rounds, steps + [t], |steps|)
  {
    assert (steps + [t])[|steps|] == t;
  }

  lemma StepAdded(request: TurnRequest, rounds: seq<Round>, n: nat, s: TurnState, steps: seq<Leaving>, r: StepRecord, q: TurnState)
    returns (more: seq<Leaving>)
    requires n < |rounds| && Told(request, rounds, s, steps) && Stands(request, rounds, n, s, steps) && s.stop.None?
    requires Moved(request, false, s, rounds[n], Some(r), q)
    ensures Told(request, rounds, q, more) && Stands(request, rounds, n + 1, q, more)
  {
    RecordIsFor(request, s, rounds[n], r, q);
    more := RecordAdded(request, rounds, n, s, steps, r, q);
  }

  lemma RecordAdded(request: TurnRequest, rounds: seq<Round>, n: nat, s: TurnState, steps: seq<Leaving>, r: StepRecord, q: TurnState)
    returns (more: seq<Leaving>)
    requires n < |rounds| && Told(request, rounds, s, steps) && Stands(request, rounds, n, s, steps) && s.stop.None?
    requires IsFor(rounds[n], r) && WhyBefore(request, s.usage, s.steps, rounds[n]).None? && q.records == s.records + [r]
    requires CountsOn(s, r, q) && Closes(r, q.stop)
    ensures Told(request, rounds, q, more) && Stands(request, rounds, n + 1, q, more)
  {
    var t := Leaving(StepMessages(r), StepEvents(request.model, r));
    more := steps + [t];
    UsageNext(rounds, n, s.usage);
    RecordToldBy(request.model, rounds[n], r, UsageBy(rounds, n + 1), n + 1);
    ToldHere(request, rounds, steps, t);
    LeftNext(request.model, s.records, steps, r, t);
    AllToldNext(request, rounds, steps, t);
    RecordGoes(request.model, rounds[n], r, q.stop);
    StandsNext(request, rounds, n, s, steps, q, t);
  }

  // ----- whole turns -----

  lemma {:induction false} PathTold(request: TurnRequest, engine: EngineState, rounds: seq<Round>, hops: seq<Hop>) returns (steps: seq<Leaving>)
    requires Path(request, false, Start(engine), rounds, hops)
    ensures Told(request, rounds, Last(Start(engine), hops), steps) && Stands(request, rounds, |hops|, Last(Start(engine), hops), steps)
  {
    if hops == [] {
      steps := [];
    } else {
      var n := |hops| - 1;
      var before := PathTold(request, engine, rounds, hops[..n]);
      steps := HopTold(request, rounds, n, Last(Start(engine), hops[..n]), before, hops[n].r, hops[n].q);
    }
  }

  // ----- to-dos -----

  /** The last list that was emitted. */
  function LastTodos(todos: seq<string>, events: seq<Payload>): seq<string> {
    if events == [] then todos
    else
      match events[|events| - 1]
      case Emitted(TodoUpdated(items)) => items
      case _ => LastTodos(todos, events[..|events| - 1])
  }

  lemma {:induction false} TodosAppend(todos: seq<string>, a: seq<Payload>, b: seq<Payload>)
    ensures LastTodos(todos, a + b) == LastTodos(LastTodos(todos, a), b)
  {
    if b == [] {
      assert a + b == a;
    } else {
      var n := |b| - 1;
      assert (a + b)[..|a| + n] == a + b[..n] && (a + b)[|a| + n] == b[n];
      TodosAppend(todos, a, b[..n]);
    }
  }

  lemma OneTodos(todos: seq<string>, p: Payload)
    ensures LastTodos(todos, [p]) == match p case Emitted(TodoUpdated(items)) => items case _ => todos
  {
    assert [p][..0] == [];
  }

  lemma {:induction false} EmissionTodos(todos: seq<string>, emissions: seq<Emission>)
    ensures LastTodos(todos, EmissionEvents(emissions)) == TodosFrom(todos, emissions)
  {
    if emissions != [] {
      var n := |emissions| - 1;
      EmissionTodos(todos, emissions[..n]);
      TodosAppend(todos, EmissionEvents(emissions[..n]), [Emitted(emissions[n])]);
      OneTodos(LastTodos(todos, EmissionEvents(emissions[..n])), Emitted(emissions[n]));
    }
  }

  lemma ExecutedTodos(todos: seq<string>, first: Payload, emissions: seq<Emission>, last: Payload)
    requires !first.Emitted? && !last.Emitted?
    ensures LastTodos(todos, [first] + EmissionEvents(emissions) + [last]) == TodosFrom(todos, emissions)
  {
    OneTodos(todos, first);
    EmissionTodos(todos, emissions);
    TodosAppend(todos, [first], EmissionEvents(emissions));
    TodosAppend(todos, [first] + EmissionEvents(emissions), [last]);
    OneTodos(LastTodos(todos, [first] + EmissionEvents(emissions)), last);
  }

  lemma RecordTodos(todos: seq<string>, r: CallRecord, steps: nat)
    ensures LastTodos(todos, RecordEvents(r, steps)) == if r.Called? && r.outcome.Executed? then TodosFrom(todos, r.outcome.emissions) else todos
  {
    match r {
      case NotRun(_, _) =>
      case Called(call, Stopped(source, reason, _)) => OneTodos(todos, ToolDenied(call.callId, call.name, source, reason));
      case Called(call, Executed(result, emissions)) => ExecutedTodos(todos, ToolStarted(call, steps), emissions, ToolFinished(result));
    }
  }

  lemma {:induction false} CallTodos(todos: seq<string>, records: seq<CallRecord>, steps: nat)
    ensures LastTodos(todos, CallEvents(records, steps)) == TodosAfter(todos, records)
  {
    if records != [] {
      var n := |records| - 1;
      CallTodos(todos, records[..n], steps);
      TodosAppend(todos, CallEvents(records[..n], steps), RecordEvents(records[n], steps));
      RecordTodos(TodosAfter(todos, records[..n]), records[n], steps);
    }
  }

  lemma {:induction false} DeltaTodos(todos: seq<string>, chunks: seq<Chunk>)
    ensures LastTodos(todos, TextDeltas(chunks)) == todos
  {
    if chunks != [] {
      var n := |chunks| - 1;
      DeltaTodos(todos, chunks[..n]);
      TodosAppend(todos, TextDeltas(chunks[..n]), DeltaFor(chunks[n]));
      if DeltaFor(chunks[n]) != [] {
        OneTodos(todos, TextDelta(chunks[n].text));
      }
    }
  }

  lemma CountedTodos(todos: seq<string>, model: string, chunks: seq<Chunk>, usage: Usage, steps: nat)
    ensures LastTodos(todos, Counted(model, chunks, usage, steps)) == todos
  {
    AllCollected(chunks);
    DeltaTodos(todos, chunks);
    TodosAppend(todos, TextDeltas(chunks), [UsageUpdated(model, usage, steps)]);
    OneTodos(todos, UsageUpdated(model, usage, steps));
  }

  lemma StepTodosAre(todos: seq<string>, model: string, r: StepRecord)
    ensures LastTodos(todos, StepEvents(model, r)) == StepTodos(todos, r)
  {
    match r {
      case FailedStep(chunks) =>
        AllCollected(chunks);
        DeltaTodos(todos, chunks);
      case CancelledStep(chunks, usage, steps) => CountedTodos(todos, model, chunks, usage, steps);
      case SpokenStep(chunks, usage, steps) => CountedTodos(todos, model, chunks, usage, steps);
      case ToolStep(chunks, usage, steps, calls) =>
        CountedTodos(todos, model, chunks, usage, steps);
        CallTodos(todos, calls, steps);
        TodosAppend(todos, Counted(model, chunks, usage, steps), CallEvents(calls, steps));
    }
  }

  /** The to-dos a session is left with are the last that its tools emitted. */
  lemma {:induction false} TodosAreLast(todos: seq<string>, model: string, records: seq<StepRecord>)
    ensures AllTodos(todos, records) == LastTodos(todos, AllEvents(model, records))
  {
    if records != [] {
      var n := |records| - 1;
      TodosAreLast(todos, model, records[..n]);
      TodosAppend(todos, AllEvents(model, records[..n]), StepEvents(model, records[n]));
      StepTodosAre(AllTodos(todos, records[..n]), model, records[n]);
    }
  }

  // ----- the whole turn -----

  /** Why a turn stopped: because of its last request, or before another one, or because it was not let go on. */
  predicate Stopped(request: TurnRequest, rounds: seq<Round>, steps: seq<Leaving>, stop: StopReason) {
    || Goes(rounds, steps, Some(stop))
    || (&& (steps == [] || Goes(rounds, steps, None)) && |steps| <= |rounds|
        && if |steps| < |rounds| then WhyBefore(request, UsageBy(rounds, |steps|), |steps|, rounds[|steps|]) == Some(stop) else stop.Cancelled?)
  }

  /** What a turn appends: what the hooks inject, if it is anything, what the user asks, and what each request leaves. */
  predicate Appends(request: TurnRequest, injected: seq<T.Block>, steps: seq<Leaving>, messages: seq<Message>) {
    var asked := UserMessage(FromUser, [T.TextBlock(request.prompt)] + request.attachments);
    messages == (if injected == [] then [asked] else [UserMessage(FromHook, injected), asked]) + MessagesIn(steps)
  }

  /** What a turn emits: its start, what each request emits, and its end with the counts. */
  predicate Emits(request: TurnRequest, rounds: seq<Round>, steps: seq<Leaving>, stop: StopReason, events: seq<Payload>) {
    && |steps| <= |rounds|
    && events == [TurnStarted(request.model, request.cacheEpoch, request.warnings)] + EventsIn(steps)
                 + [TurnCompleted(stop, request.model, UsageBy(rounds, |steps|), AnsweredOf(rounds, |steps|))]
  }

  lemma RunTold(request: TurnRequest, setup: D.Setup, engine: EngineState, rounds: seq<Round>, s: TurnState) returns (steps: seq<Leaving>)
    requires IsAfter(request, setup, engine, rounds, |rounds|, s)
    ensures Told(request, rounds, s, steps) && Stands(request, rounds, |rounds|, s, steps)
  {
    var hops := PathTo(request, setup, engine, rounds, |rounds|, false, s);
    steps := PathTold(request, engine, rounds, hops);
  }

  lemma StopTold(request: TurnRequest, rounds: seq<Round>, s: TurnState, steps: seq<Leaving>)
    requires Stands(request, rounds, |rounds|, s, steps)
    ensures Stopped(request, rounds, steps, if s.stop.Some? then s.stop.value else Cancelled)
  {}

  lemma EventsTold(request: TurnRequest, rounds: seq<Round>, e: TurnState, steps: seq<Leaving>)
    requires e.stop.Some? && Counts(rounds, e, |steps|) && EventsIn(steps) == AllEvents(request.model, e.records)
    ensures Emits(request, rounds, steps, e.stop.value, TurnEvents(request, e))
  {}

  lemma MessagesTold(request: TurnRequest, hooks: seq<H.RegisteredHook>, e: TurnState, steps: seq<Leaving>, injected: seq<T.Block>)
    requires MessagesIn(steps) == AllMessages(e.records) && injected == H.TurnStart(hooks, request.start, |hooks|)
    ensures Appends(request, injected, steps, TurnMessages(request, hooks, e))
  {}

  /** Every turn, told by what the model streams, what the hooks give, the signal, the clock and the events, from which each
      message of the history can be read. */
  lemma TurnIsTold(request: TurnRequest, setup: D.Setup, engine: EngineState, rounds: seq<Round>, todos: seq<string>)
    returns (given: seq<seq<T.Block>>, steps: seq<Leaving>)
    ensures |given| == |setup.hooks| && forall i :: 0 <= i < |given| ==> H.Gives(setup.hooks[i], request.start(i), given[i])
    ensures forall k :: 0 <= k < |steps| ==> StepToldAt(request, rounds, steps, k)
    ensures var s := Ended(request, setup, engine, rounds);
            && s.stop.Some? && Stopped(request, rounds, steps, s.stop.value)
            && Emits(request, rounds, steps, s.stop.value, TurnEvents(request, s))
            && Appends(request, H.Flat(given), steps, TurnMessages(request, setup.hooks, s))
            && AllTodos(todos, s.records) == LastTodos(todos, EventsIn(steps))
  {
    given := H.TurnStartIs(setup.hooks, request.start, |setup.hooks|);
    var s := StateAfter(request, setup, engine, rounds, |rounds|);
    steps := RunTold(request, setup, engine, rounds, s);
    var e := Ended(request, setup, engine, rounds);
    StopTold(request, rounds, s, steps);
    EventsTold(request, rounds, e, steps);
    MessagesTold(request, setup.hooks, e, steps, H.Flat(given));
    TodosAreLast(todos, request.model, e.records);
  }
}
