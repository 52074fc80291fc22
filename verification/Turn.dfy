/** The turn machine (packages/core/src/turn.ts): what one turn does, given everything the world answers. */
module Turn {
  import opened Text
  import opened Cost
  import opened Budget
  import opened Events
  import opened Session
  import T = Truncate
  import H = Hooks
  import P = Permissions
  import D = Dispatch

  datatype FinishReason = StopFinish | ToolCallsFinish | LengthFinish | FilterFinish | ErrorFinish

  datatype Chunk = TextChunk(text: string) | CallChunk(call: ToolCall) | FinishChunk(reason: FinishReason, usage: Usage)

  /** A model stream: the chunks it delivers, and whether it fails behind them. */
  datatype Answer = Answer(chunks: seq<Chunk>, throws: bool)

  /** What the world answers around one tool call: whether the turn is aborted before it, and the rest. */
  datatype CallAnswer = CallAnswer(aborted: bool, world: D.CallWorld)

  /** What the world answers in one round: the abort signal and the clock before the request, the model,
      the signal behind it, the clock before the tools, and one answer for each call. */
  datatype Round = Round(aborted: bool, now: int, answer: Answer, abortedAfter: bool, limitsNow: int, calls: nat -> CallAnswer)

  datatype TurnRequest = TurnRequest(
    model: string, cacheEpoch: nat, warnings: seq<string>, prompt: string, attachments: seq<T.Block>,
    budget: TurnBudget, prices: Option<PriceSheet>, startedAt: int, limits: ToolLimits, start: H.StartAnswers)

  // ----- the stream -----

  datatype Streamed = Streamed(text: string, calls: seq<ToolCall>, usage: Option<Usage>, finish: Option<FinishReason>)

  function Collect(s: Streamed, chunk: Chunk): Streamed {
    match chunk
    case TextChunk(text) => s.(text := s.text + text)
    case CallChunk(call) => s.(calls := s.calls + [call])
    case FinishChunk(reason, usage) => s.(usage := Some(usage), finish := Some(reason))
  }

  /** What the first `n` chunks add up to. */
  function Collected(chunks: seq<Chunk>, n: nat): Streamed
    requires n <= |chunks|
  {
    if n == 0 then Streamed("", [], None, None) else Collect(Collected(chunks, n - 1), chunks[n - 1])
  }

  function ChunkEvents(chunk: Chunk): seq<Payload> {
    match chunk
    case TextChunk(text) => DeltaOf(text)
    case _ => []
  }

  /** The text deltas the first `n` chunks emit. */
  function Deltas(chunks: seq<Chunk>, n: nat): seq<Payload>
    requires n <= |chunks|
  {
    if n == 0 then [] else Deltas(chunks, n - 1) + ChunkEvents(chunks[n - 1])
  }

  method ConsumeStream(answer: Answer, emitter: TurnEmitter) returns (s: Option<Streamed>)
    requires emitter.Valid()
    modifies emitter, emitter.log
    ensures emitter.Valid() && emitter.emitted == old(emitter.emitted) + Deltas(answer.chunks, |answer.chunks|)
    ensures s == if answer.throws then None else Some(Collected(answer.chunks, |answer.chunks|))
  {
    var chunks := answer.chunks;
    var text, calls, usage, finish := "", [], None, None;
    for i: nat := 0 to |chunks|
      invariant emitter.Valid() && emitter.emitted == old(emitter.emitted) + Deltas(chunks, i)
      invariant Streamed(text, calls, usage, finish) == Collected(chunks, i)
    {
      Regroup(old(emitter.emitted), Deltas(chunks, i), ChunkEvents(chunks[i]));
      match chunks[i] {
        case TextChunk(delta) =>
          text := text + delta;
          emitter.Delta(delta);
        case CallChunk(call) =>
          calls := calls + [call];
        case FinishChunk(reason, u) =>
          usage, finish := Some(u), Some(reason);
      }
    }
    s := if answer.throws then None else Some(Streamed(text, calls, usage, finish));
  }

  // ----- tool calls -----

  /** What became of one call: it was dispatched, or answered without being run. */
  datatype CallRecord = Called(call: ToolCall, outcome: D.Outcome) | NotRun(call: ToolCall, turnAborted: bool)

  datatype EngineState = EngineState(allowed: set<string>, store: T.Store)

  datatype Phase = Phase(records: seq<CallRecord>, abort: bool, cancelled: bool, engine: EngineState)

  /** One call of the phase: what becomes of it, and what the phase then knows. */
  datatype CallStep = CallStep(record: CallRecord, abort: bool, cancelled: bool, engine: EngineState)

  function CallTaken(p: Phase, setup: D.Setup, call: ToolCall, limits: ToolLimits, a: CallAnswer): CallStep {
    if p.abort || p.cancelled || a.aborted then CallStep(NotRun(call, p.abort), p.abort, p.cancelled || a.aborted, p.engine)
    else
      var d := D.DispatchedCall(setup, call, limits, a.world, p.engine.allowed, p.engine.store);
      CallStep(Called(call, d.outcome), d.outcome.Stopped? && d.outcome.abort, false, EngineState(d.allowed, d.store))
  }

  function Extended(p: Phase, c: CallStep): Phase {
    Phase(p.records + [c.record], c.abort, c.cancelled, c.engine)
  }

  /** Where the first `n` calls lead. */
  function PhaseUpTo(setup: D.Setup, calls: seq<ToolCall>, limits: ToolLimits, answers: nat -> CallAnswer, engine: EngineState, n: nat): Phase
    requires n <= |calls|
  {
    if n == 0 then Phase([], false, false, engine)
    else
      var p := PhaseUpTo(setup, calls, limits, answers, engine, n - 1);
      Extended(p, CallTaken(p, setup, calls[n - 1], limits, answers(n - 1)))
  }

  /** The tool message that answers the call. */
  function MessageOf(r: CallRecord): Message {
    match r
    case NotRun(call, turnAborted) =>
      ToolMessage(call.callId, call.name, false,
                  [T.TextBlock(if turnAborted then "not run: the turn was aborted by an earlier decision" else "not run: the turn was cancelled")])
    case Called(call, Stopped(_, reason, _)) => ToolMessage(call.callId, call.name, false, [T.TextBlock("denied: " + ReasonText(reason))])
    case Called(call, Executed(result, _)) => ToolMessage(result.callId, call.name, result.ok, result.content)
  }

  /** The part of the reason's wording that the world supplied. */
  function ReasonText(reason: Reason): string {
    match reason
    case HookTimedOut(hook, _) => hook
    case HookFailed(_, message) => message
    case HookDenied(_, text) => text
    case RuleForbids(prefix) => prefix
    case NeverAsks => ""
    case NoChannel => ""
    case UserDenied(note) => if note.Some? then note.value else ""
    case UserAborted(note) => if note.Some? then note.value else ""
  }

  function EmissionEvents(emissions: seq<Emission>): seq<Payload> {
    if emissions == [] then [] else EmissionEvents(emissions[..|emissions| - 1]) + [Emitted(emissions[|emissions| - 1])]
  }

  function TodosFrom(todos: seq<string>, emissions: seq<Emission>): seq<string> {
    if emissions == [] then todos
    else match emissions[|emissions| - 1]
      case TodoUpdated(items) => items
      case _ => TodosFrom(todos, emissions[..|emissions| - 1])
  }

  function RecordEvents(r: CallRecord, step: nat): seq<Payload> {
    match r
    case NotRun(_, _) => []
    case Called(call, Stopped(source, reason, _)) => [ToolDenied(call.callId, call.name, source, reason)]
    case Called(call, Executed(result, emissions)) => [ToolStarted(call, step)] + EmissionEvents(emissions) + [ToolFinished(result)]
  }

  function MessagesOf(records: seq<CallRecord>): seq<Message> {
    if records == [] then [] else MessagesOf(records[..|records| - 1]) + [MessageOf(records[|records| - 1])]
  }

  function CallEvents(records: seq<CallRecord>, step: nat): seq<Payload> {
    if records == [] then [] else CallEvents(records[..|records| - 1], step) + RecordEvents(records[|records| - 1], step)
  }

  function TodosAfter(todos: seq<string>, records: seq<CallRecord>): seq<string> {
    if records == [] then todos
    else
      var before := TodosAfter(todos, records[..|records| - 1]);
      match records[|records| - 1]
      case Called(_, Executed(_, emissions)) => TodosFrom(before, emissions)
      case _ => before
  }

  method ApplyEmissions(emissions: seq<Emission>, session: Session, emitter: TurnEmitter)
    requires emitter.Valid()
    modifies session`todos, emitter, emitter.log
    ensures emitter.Valid() && emitter.emitted == old(emitter.emitted) + EmissionEvents(emissions)
    ensures session.todos == TodosFrom(old(session.todos), emissions)
  {
    for i: nat := 0 to |emissions|
      invariant emitter.Valid() && emitter.emitted == old(emitter.emitted) + EmissionEvents(emissions[..i])
      invariant session.todos == TodosFrom(old(session.todos), emissions[..i])
    {
      assert emissions[..i + 1][..i] == emissions[..i];
      Regroup(old(emitter.emitted), EmissionEvents(emissions[..i]), [Emitted(emissions[i])]);
      match emissions[i] {
        case TodoUpdated(items) =>
          session.todos := items;
        case _ =>
      }
      emitter.Emit(Emitted(emissions[i]));
    }
    assert emissions[..|emissions|] == emissions;
  }

  /** The events of one call. */
  method Report(record: CallRecord, session: Session, emitter: TurnEmitter, step: nat)
    requires emitter.Valid()
    modifies session`todos, emitter, emitter.log
    ensures emitter.Valid() && emitter.emitted == old(emitter.emitted) + RecordEvents(record, step)
    ensures session.todos == if record.Called? && record.outcome.Executed? then TodosFrom(old(session.todos), record.outcome.emissions)
                             else old(session.todos)
  {
    match record {
      case NotRun(_, _) =>
      case Called(call, outcome) =>
        match outcome {
          case Stopped(source, reason, _) =>
            emitter.Emit(ToolDenied(call.callId, call.name, source, reason));
          case Executed(result, emissions) =>
            emitter.Emit(ToolStarted(call, step));
            ApplyEmissions(emissions, session, emitter);
            emitter.Emit(ToolFinished(result));
        }
    }
  }

  /** One call of the phase: dispatched, unless the turn is ending. */
  method RunNext(engine: D.Engine, call: ToolCall, limits: ToolLimits, a: CallAnswer, p: Phase) returns (c: CallStep)
    requires p.engine == EngineState(engine.gate.sessionAllowed, engine.continuations.State())
    modifies engine.gate, engine.continuations
    ensures c == CallTaken(p, engine.SetupOf(), call, limits, a)
    ensures c.engine == EngineState(engine.gate.sessionAllowed, engine.continuations.State())
  {
    if p.abort || p.cancelled || a.aborted {
      c := CallStep(NotRun(call, p.abort), p.abort, p.cancelled || a.aborted, p.engine);
    } else {
      var d := engine.DispatchToolCall(call, limits, a.world);
      var abort := d.outcome.Stopped? && d.outcome.abort;
      c := CallStep(Called(call, d.outcome), abort, false, EngineState(d.allowed, d.store));
    }
  }

  /** A tool phase before its first call. */
  datatype PhaseStart = PhaseStart(setup: D.Setup, calls: seq<ToolCall>, step: nat, limits: ToolLimits, answers: nat -> CallAnswer,
                                   engine: EngineState, todos: seq<string>)

  /** The objects are where the first `i` calls lead. */
  ghost predicate Performed(session: Session, emitter: TurnEmitter, engine: D.Engine, start: PhaseStart, emitted: seq<Payload>, i: nat, p: Phase)
    reads session, emitter, emitter.log, engine.gate, engine.continuations, engine.hooks
  {
    && emitter.Valid() && engine.SetupOf() == start.setup && i <= |start.calls|
    && p == PhaseUpTo(start.setup, start.calls, start.limits, start.answers, start.engine, i)
    && p.engine == EngineState(engine.gate.sessionAllowed, engine.continuations.State())
    && emitter.emitted == emitted + CallEvents(p.records, start.step)
    && session.todos == TodosAfter(start.todos, p.records)
  }

  /** One call of the phase, with its message and its events. */
  method NextCall(session: Session, emitter: TurnEmitter, engine: D.Engine, start: PhaseStart, ghost emitted: seq<Payload>, i: nat, p: Phase) returns (q: Phase)
    requires i < |start.calls| && Performed(session, emitter, engine, start, emitted, i, p)
    modifies session`todos, emitter, emitter.log, engine.gate, engine.continuations
    ensures Performed(session, emitter, engine, start, emitted, i + 1, q)
  {
    var c := RunNext(engine, start.calls[i], start.limits, start.answers(i), p);
    Report(c.record, session, emitter, start.step);
    q := Extended(p, c);
    Regroup(emitted, CallEvents(p.records, start.step), RecordEvents(c.record, start.step));
    assert q.records[..|p.records|] == p.records;
  }

  method RunToolCalls(session: Session, emitter: TurnEmitter, engine: D.Engine, start: PhaseStart, ghost emitted: seq<Payload>) returns (p: Phase)
    requires Performed(session, emitter, engine, start, emitted, 0, Phase([], false, false, start.engine))
    modifies session`todos, emitter, emitter.log, engine.gate, engine.continuations
    ensures Performed(session, emitter, engine, start, emitted, |start.calls|, p)
  {
    p := Phase([], false, false, start.engine);
    for i: nat := 0 to |start.calls|
      invariant Performed(session, emitter, engine, start, emitted, i, p)
    {
      p := NextCall(session, emitter, engine, start, emitted, i, p);
    }
  }

  // ----- one round -----

  /** What one model request came to. `usage` and `steps` are the turn's, behind it. */
  datatype StepRecord =
    | FailedStep(chunks: seq<Chunk>)
    | CancelledStep(chunks: seq<Chunk>, usage: Usage, steps: nat)
    | SpokenStep(chunks: seq<Chunk>, usage: Usage, steps: nat)
    | ToolStep(chunks: seq<Chunk>, usage: Usage, steps: nat, calls: seq<CallRecord>)

  /** A turn under way: the requests made, what the budget has recorded, why it stopped, and the engine. */
  datatype TurnState = TurnState(records: seq<StepRecord>, usage: Usage, steps: nat, stop: Option<StopReason>, engine: EngineState)

  function TrackedBy(request: TurnRequest, s: TurnState): Tracked {
    Tracked(request.budget, request.prices, request.startedAt, s.steps, s.usage)
  }

  /** Why the turn stops before another request. */
  function Preflight(request: TurnRequest, s: TurnState, round: Round): Option<StopReason> {
    if round.aborted then Some(Cancelled)
    else match FirstReached(TrackedBy(request, s), round.now)
      case Some(e) => Some(e.stopReason)
      case None => None
  }

  function WithUsage(usage: Usage, streamed: Streamed): Usage {
    match streamed.usage
    case Some(u) => AddUsage(usage, u)
    case None => usage
  }

  /** Why the turn stops behind a tool phase. */
  function PhaseStop(p: Phase): Option<StopReason> {
    if p.abort then Some(Refused) else if p.cancelled then Some(Cancelled) else None
  }

  /** The tool phase of a round. */
  function PhaseOf(request: TurnRequest, setup: D.Setup, engine: EngineState, round: Round, calls: seq<ToolCall>): Phase {
    PhaseUpTo(setup, calls, Narrowed(request.limits, request.budget, request.startedAt, round.limitsNow), round.calls, engine, |calls|)
  }

  function PhaseTaken(s: TurnState, chunks: seq<Chunk>, usage: Usage, steps: nat, p: Phase): TurnState {
    TurnState(s.records + [ToolStep(chunks, usage, steps, p.records)], usage, steps, PhaseStop(p), p.engine)
  }

  /** What follows from an answer that is kept. */
  function Continued(request: TurnRequest, setup: D.Setup, s: TurnState, round: Round, streamed: Streamed, usage: Usage, steps: nat): TurnState {
    if streamed.calls == [] then
      TurnState(s.records + [SpokenStep(round.answer.chunks, usage, steps)], usage, steps,
                Some(if streamed.finish == Some(ErrorFinish) then Error else EndTurn), s.engine)
    else PhaseTaken(s, round.answer.chunks, usage, steps, PhaseOf(request, setup, s.engine, round, streamed.calls))
  }

  function FailedTurn(s: TurnState, chunks: seq<Chunk>): TurnState {
    s.(records := s.records + [FailedStep(chunks)], stop := Some(Error))
  }

  function CancelledTurn(s: TurnState, chunks: seq<Chunk>, usage: Usage, steps: nat): TurnState {
    TurnState(s.records + [CancelledStep(chunks, usage, steps)], usage, steps, Some(Cancelled), s.engine)
  }

  /** What follows from an answer: nothing more when the turn was cancelled meanwhile. */
  function Heeded(request: TurnRequest, setup: D.Setup, s: TurnState, round: Round, streamed: Streamed, usage: Usage, steps: nat): TurnState {
    if round.abortedAfter then CancelledTurn(s, round.answer.chunks, usage, steps)
    else Continued(request, setup, s, round, streamed, usage, steps)
  }

  /** A request, and what follows from what the model answers. */
  function StepTaken(request: TurnRequest, setup: D.Setup, s: TurnState, round: Round): TurnState {
    var chunks := round.answer.chunks;
    if round.answer.throws then FailedTurn(s, chunks)
    else
      var streamed := Collected(chunks, |chunks|);
      var usage := WithUsage(s.usage, streamed);
      Heeded(request, setup, s, round, streamed, usage, s.steps + 1)
  }

  function RoundTaken(request: TurnRequest, setup: D.Setup, s: TurnState, round: Round): TurnState {
    match Preflight(request, s, round)
    case Some(stop) => s.(stop := Some(stop))
    case None => StepTaken(request, setup, s, round)
  }

  /** The turn after at most `n` rounds: once it has stopped, nothing more happens. */
  function StateAfter(request: TurnRequest, setup: D.Setup, engine: EngineState, rounds: seq<Round>, n: nat): TurnState
    requires n <= |rounds|
  {
    if n == 0 then TurnState([], ZERO_USAGE, 0, None, engine)
    else
      var s := StateAfter(request, setup, engine, rounds, n - 1);
      if s.stop.Some? then s else RoundTaken(request, setup, s, rounds[n - 1])
  }

  /** The turn at its end. A turn that these rounds do not end is cancelled behind them. */
  function Ended(request: TurnRequest, setup: D.Setup, engine: EngineState, rounds: seq<Round>): TurnState {
    var s := StateAfter(request, setup, engine, rounds, |rounds|);
    if s.stop.Some? then s else s.(stop := Some(Cancelled))
  }

  // ----- what a turn leaves -----

  function Content(text: string): seq<T.Block> {
    if text == "" then [] else [T.TextBlock(text)]
  }

  /** The messages a request appends. */
  function StepMessages(r: StepRecord): seq<Message> {
    match r
    case FailedStep(_) => []
    case CancelledStep(_, _, _) => []
    case SpokenStep(chunks, _, _) => [Spoken(Collected(chunks, |chunks|))]
    case ToolStep(chunks, _, _, calls) => [Spoken(Collected(chunks, |chunks|))] + MessagesOf(calls)
  }

  function Spoken(streamed: Streamed): Message {
    AssistantMessage(Content(streamed.text), streamed.calls)
  }

  /** The events of a request that was answered, up to the count. */
  function Counted(model: string, chunks: seq<Chunk>, usage: Usage, steps: nat): seq<Payload> {
    Deltas(chunks, |chunks|) + [UsageUpdated(model, usage, steps)]
  }

  /** The events of a request. */
  function StepEvents(model: string, r: StepRecord): seq<Payload> {
    match r
    case FailedStep(chunks) => Deltas(chunks, |chunks|)
    case CancelledStep(chunks, usage, steps) => Counted(model, chunks, usage, steps)
    case SpokenStep(chunks, usage, steps) => Counted(model, chunks, usage, steps)
    case ToolStep(chunks, usage, steps, calls) => Counted(model, chunks, usage, steps) + CallEvents(calls, steps)
  }

  function StepTodos(todos: seq<string>, r: StepRecord): seq<string> {
    match r
    case ToolStep(_, _, _, calls) => TodosAfter(todos, calls)
    case _ => todos
  }

  function AllMessages(records: seq<StepRecord>): seq<Message> {
    if records == [] then [] else AllMessages(records[..|records| - 1]) + StepMessages(records[|records| - 1])
  }

  function AllEvents(model: string, records: seq<StepRecord>): seq<Payload> {
    if records == [] then [] else AllEvents(model, records[..|records| - 1]) + StepEvents(model, records[|records| - 1])
  }

  function AllTodos(todos: seq<string>, records: seq<StepRecord>): seq<string> {
    if records == [] then todos else StepTodos(AllTodos(todos, records[..|records| - 1]), records[|records| - 1])
  }

  /** What a turn appends before the first request. */
  function Opening(request: TurnRequest, hooks: seq<H.RegisteredHook>): seq<Message> {
    var injected := H.TurnStart(hooks, request.start, |hooks|);
    (if injected == [] then [] else [UserMessage(FromHook, injected)]) + [UserMessage(FromUser, [T.TextBlock(request.prompt)] + request.attachments)]
  }

  function TurnMessages(request: TurnRequest, hooks: seq<H.RegisteredHook>, s: TurnState): seq<Message> {
    Opening(request, hooks) + AllMessages(s.records)
  }

  function TurnEvents(request: TurnRequest, s: TurnState): seq<Payload>
    requires s.stop.Some?
  {
    [TurnStarted(request.model, request.cacheEpoch, request.warnings)] + AllEvents(request.model, s.records)
    + [TurnCompleted(s.stop.value, request.model, s.usage, s.steps)]
  }

  predicate IsStep(request: TurnRequest, setup: D.Setup, s: TurnState, round: Round, q: TurnState) {
    q == StepTaken(request, setup, s, round)
  }

  lemma FailsThen(request: TurnRequest, setup: D.Setup, s: TurnState, round: Round)
    requires round.answer.throws
    ensures IsStep(request, setup, s, round, FailedTurn(s, round.answer.chunks))
  {}

  lemma HeedsThen(request: TurnRequest, setup: D.Setup, s: TurnState, round: Round, q: TurnState)
    requires !round.answer.throws
    requires var streamed := Collected(round.answer.chunks, |round.answer.chunks|);
             q == Heeded(request, setup, s, round, streamed, WithUsage(s.usage, streamed), s.steps + 1)
    ensures IsStep(request, setup, s, round, q)
  {}

  // ----- the machine -----

  /** The objects a turn works on. */
  class Machine {
    const session: Session
    const emitter: TurnEmitter
    const engine: D.Engine
    const tracker: BudgetTracker

    constructor (session: Session, emitter: TurnEmitter, engine: D.Engine, tracker: BudgetTracker)
      ensures this.session == session && this.emitter == emitter && this.engine == engine && this.tracker == tracker
    {
      this.session, this.emitter, this.engine, this.tracker := session, emitter, engine, tracker;
    }

    /** The objects are as a turn in state `s` leaves them. */
    ghost predicate At(request: TurnRequest, before: Before, s: TurnState)
      reads session, emitter, emitter.log, engine.hooks, engine.gate, engine.continuations, tracker
    {
      && emitter.Valid() && engine.SetupOf() == before.setup
      && s.engine == EngineState(engine.gate.sessionAllowed, engine.continuations.State())
      && tracker.State() == TrackedBy(request, s)
      && session.messages == before.messages + AllMessages(s.records)
      && session.todos == AllTodos(before.todos, s.records)
      && session.usage == before.usage && session.turns == before.turns
      && emitter.emitted == before.emitted + AllEvents(request.model, s.records)
    }

    /** Why the turn stops before another request. */
    method StopBefore(request: TurnRequest, s: TurnState, round: Round) returns (stop: Option<StopReason>)
      requires tracker.State() == TrackedBy(request, s)
      ensures stop == Preflight(request, s, round)
    {
      if round.aborted {
        return Some(Cancelled);
      }
      var exhausted := tracker.Check(round.now);
      if exhausted.Some? {
        return Some(exhausted.value.stopReason);
      }
      stop := None;
    }

    /** The model answers, and what it used is recorded. */
    method Respond(request: TurnRequest, s: TurnState, round: Round) returns (streamed: Option<Streamed>)
      requires emitter.Valid() && tracker.State() == TrackedBy(request, s)
      modifies emitter, emitter.log, tracker
      ensures emitter.Valid()
      ensures streamed == if round.answer.throws then None else Some(Collected(round.answer.chunks, |round.answer.chunks|))
      ensures streamed.None? ==>
                tracker.State() == TrackedBy(request, s) && emitter.emitted == old(emitter.emitted) + Deltas(round.answer.chunks, |round.answer.chunks|)
      ensures streamed.Some? ==>
                && tracker.State() == Tracked(request.budget, request.prices, request.startedAt, s.steps + 1, WithUsage(s.usage, streamed.value))
                && emitter.emitted == old(emitter.emitted) + Counted(request.model, round.answer.chunks, WithUsage(s.usage, streamed.value), s.steps + 1)
    {
      streamed := ConsumeStream(round.answer, emitter);
      if streamed.None? {
        return;
      }
      var usage := s.usage;
      if streamed.value.usage.Some? {
        usage := AddUsage(s.usage, streamed.value.usage.value);
        tracker.RecordUsage(usage);
      }
      tracker.RecordStep();
      Regroup(old(emitter.emitted), Deltas(round.answer.chunks, |round.answer.chunks|), [UsageUpdated(request.model, usage, tracker.steps)]);
      emitter.Emit(UsageUpdated(request.model, usage, tracker.steps));
    }

    /** The tool calls of a step, behind its assistant message. */
    method RunTools(request: TurnRequest, ghost before: Before, s: TurnState, round: Round, calls: seq<ToolCall>, usage: Usage, steps: nat) returns (q: TurnState)
      requires emitter.Valid() && engine.SetupOf() == before.setup
      requires s.engine == EngineState(engine.gate.sessionAllowed, engine.continuations.State())
      requires tracker.State() == Tracked(request.budget, request.prices, request.startedAt, steps, usage)
      modifies session`messages, session`todos, emitter, emitter.log, engine.gate, engine.continuations
      ensures emitter.Valid() && engine.SetupOf() == before.setup
      ensures q.engine == EngineState(engine.gate.sessionAllowed, engine.continuations.State())
      ensures var p := PhaseOf(request, before.setup, s.engine, round, calls);
              && q == PhaseTaken(s, round.answer.chunks, usage, steps, p)
              && session.messages == old(session.messages) + MessagesOf(p.records)
              && session.todos == TodosAfter(old(session.todos), p.records)
              && emitter.emitted == old(emitter.emitted) + CallEvents(p.records, steps)
    {
      var limits := ToolLimitsFor(request.limits, tracker, round.limitsNow);
      var start := PhaseStart(engine.SetupOf(), calls, steps, limits, round.calls, s.engine, session.todos);
      var p := RunToolCalls(session, emitter, engine, start, emitter.emitted);
      session.Append(MessagesOf(p.records));
      var stop := None;
      if p.abort {
        stop := Some(Refused);
      } else if p.cancelled {
        stop := Some(Cancelled);
      }
      q := TurnState(s.records + [ToolStep(round.answer.chunks, usage, steps, p.records)], usage, steps, stop, p.engine);
    }

    /** The objects as a request leaves them, which a turn in state `s` has made. */
    ghost predicate Adds(request: TurnRequest, before: Before, s: TurnState, r: StepRecord, q: TurnState)
      reads session, emitter, emitter.log, engine.hooks, engine.gate, engine.continuations, tracker
    {
      && emitter.Valid() && engine.SetupOf() == before.setup
      && q.records == s.records + [r]
      && q.engine == EngineState(engine.gate.sessionAllowed, engine.continuations.State())
      && tracker.State() == TrackedBy(request, q)
      && session.messages == (before.messages + AllMessages(s.records)) + StepMessages(r)
      && session.todos == StepTodos(AllTodos(before.todos, s.records), r)
      && session.usage == before.usage && session.turns == before.turns
      && emitter.emitted == (before.emitted + AllEvents(request.model, s.records)) + StepEvents(request.model, r)
    }

    lemma Arrives(request: TurnRequest, before: Before, s: TurnState, r: StepRecord, q: TurnState)
      requires Adds(request, before, s, r, q)
      ensures At(request, before, q)
    {
      Grown(request.model, before, s.records, r);
    }

    /** The objects when the model's answer has been recorded, and `messages` are the history. */
    ghost predicate Heard(request: TurnRequest, before: Before, s: TurnState, chunks: seq<Chunk>, usage: Usage, steps: nat, messages: seq<Message>)
      reads session, emitter, emitter.log, engine.hooks, engine.gate, engine.continuations, tracker
    {
      && emitter.Valid() && engine.SetupOf() == before.setup
      && s.engine == EngineState(engine.gate.sessionAllowed, engine.continuations.State())
      && tracker.State() == Tracked(request.budget, request.prices, request.startedAt, steps, usage)
      && session.messages == messages
      && session.todos == AllTodos(before.todos, s.records)
      && session.usage == before.usage && session.turns == before.turns
      && emitter.emitted == (before.emitted + AllEvents(request.model, s.records)) + Counted(request.model, chunks, usage, steps)
    }

    /** The tools the model asked for are run. */
    method AppendTools(request: TurnRequest, ghost before: Before, s: TurnState, round: Round, streamed: Streamed, usage: Usage, steps: nat)
      returns (q: TurnState, ghost r: StepRecord)
      requires Heard(request, before, s, round.answer.chunks, usage, steps, (before.messages + AllMessages(s.records)) + [Spoken(streamed)])
      requires streamed == Collected(round.answer.chunks, |round.answer.chunks|)
      modifies session`messages, session`todos, emitter, emitter.log, engine.gate, engine.continuations
      ensures q == PhaseTaken(s, round.answer.chunks, usage, steps, PhaseOf(request, before.setup, s.engine, round, streamed.calls))
      ensures Adds(request, before, s, r, q)
    {
      q := RunTools(request, before, s, round, streamed.calls, usage, steps);
      r := q.records[|s.records|];
      ToolsAppended(request, before, s, streamed, r, q);
    }

    lemma ToolsAppended(request: TurnRequest, before: Before, s: TurnState, streamed: Streamed, r: StepRecord, q: TurnState)
      requires r.ToolStep? && streamed == Collected(r.chunks, |r.chunks|)
      requires emitter.Valid() && engine.SetupOf() == before.setup
      requires q.records == s.records + [r] && q.engine == EngineState(engine.gate.sessionAllowed, engine.continuations.State())
      requires tracker.State() == TrackedBy(request, q)
      requires session.messages == (before.messages + AllMessages(s.records)) + [Spoken(streamed)] + MessagesOf(r.calls)
      requires session.todos == TodosAfter(AllTodos(before.todos, s.records), r.calls)
      requires session.usage == before.usage && session.turns == before.turns
      requires emitter.emitted == (before.emitted + AllEvents(request.model, s.records)) + Counted(request.model, r.chunks, r.usage, r.steps) + CallEvents(r.calls, r.steps)
      ensures Adds(request, before, s, r, q)
    {
      Regroup(before.messages + AllMessages(s.records), [Spoken(streamed)], MessagesOf(r.calls));
      Regroup(before.emitted + AllEvents(request.model, s.records), Counted(request.model, r.chunks, r.usage, r.steps), CallEvents(r.calls, r.steps));
    }

    /** What the model said is appended, and the tools it asked for are run. */
    method Append(request: TurnRequest, ghost before: Before, s: TurnState, round: Round, streamed: Streamed, usage: Usage, steps: nat)
      returns (q: TurnState, ghost r: StepRecord)
      requires Heard(request, before, s, round.answer.chunks, usage, steps, before.messages + AllMessages(s.records))
      requires streamed == Collected(round.answer.chunks, |round.answer.chunks|)
      modifies session`messages, session`todos, emitter, emitter.log, engine.gate, engine.continuations
      ensures q == Continued(request, before.setup, s, round, streamed, usage, steps)
      ensures Adds(request, before, s, r, q)
    {
      session.Append([Spoken(streamed)]);
      if |streamed.calls| == 0 {
        r := SpokenStep(round.answer.chunks, usage, steps);
        var stop := if streamed.finish == Some(ErrorFinish) then Error else EndTurn;
        q := TurnState(s.records + [SpokenStep(round.answer.chunks, usage, steps)], usage, steps, Some(stop), s.engine);
      } else {
        q, r := AppendTools(request, before, s, round, streamed, usage, steps);
      }
    }

    /** The request is made, and the answer recorded. */
    method Ask(request: TurnRequest, ghost before: Before, s: TurnState, round: Round) returns (streamed: Option<Streamed>)
      requires At(request, before, s)
      modifies emitter, emitter.log, tracker
      ensures streamed == if round.answer.throws then None else Some(Collected(round.answer.chunks, |round.answer.chunks|))
      ensures streamed.None? ==> Adds(request, before, s, FailedStep(round.answer.chunks), FailedTurn(s, round.answer.chunks))
      ensures streamed.Some? ==> tracker.steps == s.steps + 1 && tracker.usage == WithUsage(s.usage, streamed.value)
      ensures streamed.Some? ==> Heard(request, before, s, round.answer.chunks, tracker.usage, tracker.steps, before.messages + AllMessages(s.records))
    {
      streamed := Respond(request, s, round);
      NothingAppended(before.messages + AllMessages(s.records));
    }

    /** What follows from an answer. */
    method Heed(request: TurnRequest, ghost before: Before, s: TurnState, round: Round, streamed: Streamed, usage: Usage, steps: nat)
      returns (q: TurnState, ghost r: StepRecord)
      requires Heard(request, before, s, round.answer.chunks, usage, steps, before.messages + AllMessages(s.records))
      requires streamed == Collected(round.answer.chunks, |round.answer.chunks|)
      modifies session`messages, session`todos, emitter, emitter.log, engine.gate, engine.continuations
      ensures q == Heeded(request, before.setup, s, round, streamed, usage, steps)
      ensures Adds(request, before, s, r, q)
    {
      if round.abortedAfter {
        q := CancelledTurn(s, round.answer.chunks, usage, steps);
        r := CancelledStep(round.answer.chunks, usage, steps);
        Dropped(request, before, s, round.answer.chunks, usage, steps);
      } else {
        q, r := Append(request, before, s, round, streamed, usage, steps);
      }
    }

    /** What follows from the stream. */
    method Settle(request: TurnRequest, ghost before: Before, s: TurnState, round: Round, streamed: Option<Streamed>) returns (q: TurnState, ghost r: StepRecord)
      requires streamed == if round.answer.throws then None else Some(Collected(round.answer.chunks, |round.answer.chunks|))
      requires streamed.None? ==> Adds(request, before, s, FailedStep(round.answer.chunks), FailedTurn(s, round.answer.chunks))
      requires streamed.Some? ==> tracker.steps == s.steps + 1 && tracker.usage == WithUsage(s.usage, streamed.value)
      requires streamed.Some? ==> Heard(request, before, s, round.answer.chunks, tracker.usage, tracker.steps, before.messages + AllMessages(s.records))
      modifies session`messages, session`todos, emitter, emitter.log, engine.gate, engine.continuations
      ensures IsStep(request, before.setup, s, round, q)
      ensures Adds(request, before, s, r, q)
    {
      if streamed.None? {
        q, r := FailedTurn(s, round.answer.chunks), FailedStep(round.answer.chunks);
        FailsThen(request, before.setup, s, round);
      } else {
        q, r := Heed(request, before, s, round, streamed.value, tracker.usage, tracker.steps);
        HeedsThen(request, before.setup, s, round, q);
      }
    }

    /** Nothing is appended for an answer that came too late. */
    lemma Dropped(request: TurnRequest, before: Before, s: TurnState, chunks: seq<Chunk>, usage: Usage, steps: nat)
      requires Heard(request, before, s, chunks, usage, steps, before.messages + AllMessages(s.records))
      ensures Adds(request, before, s, CancelledStep(chunks, usage, steps), CancelledTurn(s, chunks, usage, steps))
    {
      NothingAppended(before.messages + AllMessages(s.records));
    }

    method RunStep(request: TurnRequest, ghost before: Before, s: TurnState, round: Round) returns (q: TurnState)
      requires At(request, before, s)
      modifies session, emitter, emitter.log, engine.gate, engine.continuations, tracker
      ensures At(request, before, q) && IsStep(request, before.setup, s, round, q)
    {
      ghost var r;
      var streamed := Ask(request, before, s, round);
      q, r := Settle(request, before, s, round, streamed);
      Arrives(request, before, s, r, q);
    }

    /** The turn after `i` rounds. */
    ghost predicate Reaches(request: TurnRequest, before: Before, start: EngineState, rounds: seq<Round>, i: nat, s: TurnState)
      reads session, emitter, emitter.log, engine.hooks, engine.gate, engine.continuations, tracker
    {
      At(request, before, s) && IsAfter(request, before.setup, start, rounds, i, s)
    }

    method RunRound(request: TurnRequest, ghost before: Before, ghost start: EngineState, rounds: seq<Round>, i: nat, s: TurnState) returns (q: TurnState)
      requires i < |rounds| && s.stop.None? && Reaches(request, before, start, rounds, i, s)
      modifies session, emitter, emitter.log, engine.gate, engine.continuations, tracker
      ensures Reaches(request, before, start, rounds, i + 1, q)
    {
      var stop := StopBefore(request, s, rounds[i]);
      if stop.Some? {
        q := s.(stop := stop);
      } else {
        q := RunStep(request, before, s, rounds[i]);
      }
    }

    method Loop(request: TurnRequest, ghost before: Before, rounds: seq<Round>, start: TurnState) returns (s: TurnState)
      requires Reaches(request, before, start.engine, rounds, 0, start)
      modifies session, emitter, emitter.log, engine.gate, engine.continuations, tracker
      ensures At(request, before, s) && s.stop.Some? && IsEnd(request, before.setup, start.engine, rounds, s)
    {
      s := start;
      for i: nat := 0 to |rounds|
        invariant Reaches(request, before, start.engine, rounds, i, s) && s.stop.None?
      {
        s := RunRound(request, before, start.engine, rounds, i, s);
        if s.stop.Some? {
          StopIsFinal(request, before.setup, start.engine, rounds, i + 1, s);
          EndsStopped(request, before.setup, start.engine, rounds, s);
          return;
        }
      }
      EndsCancelled(request, before.setup, start.engine, rounds, s);
      StillAt(request, before, s);
      s := s.(stop := Some(Cancelled));
    }

    lemma StillAt(request: TurnRequest, before: Before, s: TurnState)
      requires At(request, before, s)
      ensures At(request, before, s.(stop := Some(Cancelled)))
    {}
  }

  predicate IsEnd(request: TurnRequest, setup: D.Setup, engine: EngineState, rounds: seq<Round>, s: TurnState) {
    s == Ended(request, setup, engine, rounds)
  }

  lemma EndsStopped(request: TurnRequest, setup: D.Setup, engine: EngineState, rounds: seq<Round>, s: TurnState)
    requires IsAfter(request, setup, engine, rounds, |rounds|, s) && s.stop.Some?
    ensures IsEnd(request, setup, engine, rounds, s)
  {}

  lemma EndsCancelled(request: TurnRequest, setup: D.Setup, engine: EngineState, rounds: seq<Round>, s: TurnState)
    requires IsAfter(request, setup, engine, rounds, |rounds|, s) && s.stop.None?
    ensures IsEnd(request, setup, engine, rounds, s.(stop := Some(Cancelled)))
  {}

  lemma NothingAppended(messages: seq<Message>)
    ensures messages + [] == messages
  {}

  predicate IsAfter(request: TurnRequest, setup: D.Setup, engine: EngineState, rounds: seq<Round>, n: nat, s: TurnState) {
    n <= |rounds| && s == StateAfter(request, setup, engine, rounds, n)
  }

  lemma StopStays(request: TurnRequest, setup: D.Setup, engine: EngineState, rounds: seq<Round>, n: nat, s: TurnState)
    requires n < |rounds| && s.stop.Some? && IsAfter(request, setup, engine, rounds, n, s)
    ensures IsAfter(request, setup, engine, rounds, n + 1, s)
  {}

  /** Once a turn has stopped, more rounds change nothing. */
  lemma {:induction false} StopIsFinal(request: TurnRequest, setup: D.Setup, engine: EngineState, rounds: seq<Round>, m: nat, s: TurnState)
    requires m <= |rounds| && s.stop.Some? && IsAfter(request, setup, engine, rounds, m, s)
    ensures IsAfter(request, setup, engine, rounds, |rounds|, s)
    decreases |rounds| - m
  {
    if m < |rounds| {
      StopStays(request, setup, engine, rounds, m, s);
      StopIsFinal(request, setup, engine, rounds, m + 1, s);
    }
  }

  /** The turn is announced, and what the hooks inject and the user asks is appended. */
  method Open(session: Session, emitter: TurnEmitter, hooks: H.HookBus, request: TurnRequest)
    requires emitter.Valid()
    modifies session`messages, emitter, emitter.log
    ensures emitter.Valid() && emitter.emitted == old(emitter.emitted) + [TurnStarted(request.model, request.cacheEpoch, request.warnings)]
    ensures session.messages == old(session.messages) + Opening(request, hooks.hooks)
  {
    emitter.Emit(TurnStarted(request.model, request.cacheEpoch, request.warnings));
    var injected := hooks.FireTurnStart(request.start);
    var asked := [UserMessage(FromUser, [T.TextBlock(request.prompt)] + request.attachments)];
    if |injected| > 0 {
      session.Append([UserMessage(FromHook, injected)]);
    }
    session.Append(asked);
    Regroup(old(session.messages), if injected == [] then [] else [UserMessage(FromHook, injected)], asked);
    assert old(session.messages) + [] == old(session.messages);
  }

  /** The outcome of a turn that was accepted, and what it leaves. */
  ghost predicate Left(session: Session, emitter: TurnEmitter, engine: D.Engine, request: TurnRequest, before: Before, start: EngineState, rounds: seq<Round>, s: TurnState)
    reads session, emitter, emitter.log, engine.hooks, engine.gate, engine.continuations
  {
    && emitter.Valid() && engine.SetupOf() == before.setup
    && IsEnd(request, before.setup, start, rounds, s)
    && s.engine == EngineState(engine.gate.sessionAllowed, engine.continuations.State())
    && session.messages == before.messages + TurnMessages(request, before.setup.hooks, s)
    && session.todos == AllTodos(before.todos, s.records)
    && session.usage == AddUsage(before.usage, s.usage) && session.turns == before.turns + 1
    && s.stop.Some? && emitter.emitted == before.emitted + TurnEvents(request, s)
  }

  /** The requests of a turn that has been opened, and its end. */
  method Finish(session: Session, emitter: TurnEmitter, engine: D.Engine, tracker: BudgetTracker, request: TurnRequest, rounds: seq<Round>, ghost before: Before)
    returns (s: TurnState)
    requires emitter.Valid() && engine.SetupOf() == before.setup
    requires tracker.State() == Tracked(request.budget, request.prices, request.startedAt, 0, ZERO_USAGE)
    requires session.messages == before.messages + Opening(request, before.setup.hooks)
    requires session.todos == before.todos && session.usage == before.usage && session.turns == before.turns
    requires emitter.emitted == before.emitted + [TurnStarted(request.model, request.cacheEpoch, request.warnings)]
    modifies session, emitter, emitter.log, engine.gate, engine.continuations, tracker
    ensures Left(session, emitter, engine, request, before, old(EngineState(engine.gate.sessionAllowed, engine.continuations.State())), rounds, s)
  {
    var start := TurnState([], ZERO_USAGE, 0, None, EngineState(engine.gate.sessionAllowed, engine.continuations.State()));
    ghost var atLoop := Before(before.setup, session.messages, before.todos, before.usage, before.turns, emitter.emitted);
    var machine := new Machine(session, emitter, engine, tracker);
    s := machine.Loop(request, atLoop, rounds, start);
    session.RecordUsage(s.usage);
    session.turns := session.turns + 1;
    emitter.Emit(TurnCompleted(s.stop.value, request.model, s.usage, s.steps));
    TurnLeaves(session, emitter, engine, request, before, start.engine, rounds, s);
  }

  lemma TurnLeaves(session: Session, emitter: TurnEmitter, engine: D.Engine, request: TurnRequest, before: Before, start: EngineState, rounds: seq<Round>, s: TurnState)
    requires emitter.Valid() && engine.SetupOf() == before.setup && s.stop.Some?
    requires IsEnd(request, before.setup, start, rounds, s)
    requires s.engine == EngineState(engine.gate.sessionAllowed, engine.continuations.State())
    requires session.messages == (before.messages + Opening(request, before.setup.hooks)) + AllMessages(s.records)
    requires session.todos == AllTodos(before.todos, s.records)
    requires session.usage == AddUsage(before.usage, s.usage) && session.turns == before.turns + 1
    requires emitter.emitted == ((before.emitted + [TurnStarted(request.model, request.cacheEpoch, request.warnings)])
                                 + AllEvents(request.model, s.records)) + [TurnCompleted(s.stop.value, request.model, s.usage, s.steps)]
    ensures Left(session, emitter, engine, request, before, start, rounds, s)
  {
    Regroup(before.messages, Opening(request, before.setup.hooks), AllMessages(s.records));
    TurnEventsIs(request, before.emitted, s);
  }

  lemma TurnEventsIs(request: TurnRequest, emitted: seq<Payload>, s: TurnState)
    requires s.stop.Some?
    ensures ((emitted + [TurnStarted(request.model, request.cacheEpoch, request.warnings)]) + AllEvents(request.model, s.records))
            + [TurnCompleted(s.stop.value, request.model, s.usage, s.steps)] == emitted + TurnEvents(request, s)
  {}

  /** One turn. A spend ceiling that cannot be computed is refused before anything happens. */
  method RunTurn(session: Session, emitter: TurnEmitter, engine: D.Engine, request: TurnRequest, rounds: seq<Round>) returns (outcome: Option<TurnState>)
    requires emitter.Valid()
    modifies session, emitter, emitter.log, engine.gate, engine.continuations
    ensures outcome.None? <==> request.budget.maxSpendUsd.Some? && request.prices.None?
    ensures outcome.None? ==> unchanged(session, emitter, emitter.log, engine.gate, engine.continuations)
    ensures outcome.Some? ==>
              Left(session, emitter, engine, request, old(BeforeOf(session, emitter, engine)),
                   old(EngineState(engine.gate.sessionAllowed, engine.continuations.State())), rounds, outcome.value)
  {
    var tracker := new BudgetTracker(request.budget, request.prices, request.startedAt);
    if request.budget.maxSpendUsd.Some? && request.prices.None? {
      return None;
    }
    ghost var before := BeforeOf(session, emitter, engine);
    Open(session, emitter, engine.hooks, request);
    var s := Finish(session, emitter, engine, tracker, request, rounds, before);
    outcome := Some(s);
  }

  ghost function BeforeOf(session: Session, emitter: TurnEmitter, engine: D.Engine): Before
    reads session, emitter, engine.hooks
  {
    Before(engine.SetupOf(), session.messages, session.todos, session.usage, session.turns, emitter.emitted)
  }

  /** One request more, on top of what was there before. */
  lemma Grown(model: string, before: Before, records: seq<StepRecord>, r: StepRecord)
    ensures before.messages + AllMessages(records + [r]) == (before.messages + AllMessages(records)) + StepMessages(r)
    ensures before.emitted + AllEvents(model, records + [r]) == (before.emitted + AllEvents(model, records)) + StepEvents(model, r)
    ensures AllTodos(before.todos, records + [r]) == StepTodos(AllTodos(before.todos, records), r)
  {
    assert (records + [r])[..|records|] == records;
    Regroup(before.messages, AllMessages(records), StepMessages(r));
    Regroup(before.emitted, AllEvents(model, records), StepEvents(model, r));
  }

  /** What is there before the first request. */
  datatype Before = Before(setup: D.Setup, messages: seq<Message>, todos: seq<string>, usage: Usage, turns: nat, emitted: seq<Payload>)
}
