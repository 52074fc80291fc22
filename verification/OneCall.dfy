/** A turn in which the model asks for one call, and what it shows about all turns (packages/core/src/turn.ts,
    packages/core/src/dispatch.ts). */
module OneCall {
  import opened Text
  import opened Cost
  import opened Budget
  import opened Events
  import opened Session
  import opened Turn
  import opened TurnFacts
  import T = Truncate
  import H = Hooks
  import P = Permissions
  import D = Dispatch

  // ----- the turn -----

  /** A request without ceilings. */
  function Unlimited(limits: ToolLimits): TurnRequest {
    TurnRequest("", 0, [], "", [], TurnBudget(None, None, None, None), None, 0, limits, (i: nat) => H.Skip)
  }

  function AskFor(call: ToolCall, world: D.CallWorld): Round {
    Round(false, 0, Answer([CallChunk(call)], false), false, 0, (i: nat) => CallAnswer(false, world))
  }

  /** The hooks let the call pass, and its tool needs no permission and ends so. */
  function Passing(execution: D.Execution, token: string, post: H.PostAnswers): D.CallWorld {
    D.CallWorld((i: nat, args: string) => H.Skip, (args: string) => D.Valid(D.Effects([]), execution),
                (path: string, roots: seq<string>) => false, P.Deny(None), token, post)
  }

  lemma NothingReached(request: TurnRequest, s: TurnState, round: Round)
    requires request.budget == TurnBudget(None, None, None, None) && !round.aborted
    ensures Preflight(request, s, round).None?
  {}

  lemma OneAsked(call: ToolCall)
    ensures Collected([CallChunk(call)], 1) == Streamed("", [call], None, None)
  {
    assert Collected([CallChunk(call)], 0) == Streamed("", [], None, None);
  }

  lemma OnePhase(setup: D.Setup, call: ToolCall, limits: ToolLimits, world: D.CallWorld, engine: EngineState, answers: nat -> CallAnswer)
    requires answers(0) == CallAnswer(false, world)
    ensures var d := D.DispatchedCall(setup, call, limits, world, engine.allowed, engine.store);
            PhaseUpTo(setup, [call], limits, answers, engine, 1).records == [Called(call, d.outcome)]
  {
    var p := Phase([], false, false, engine);
    assert PhaseUpTo(setup, [call], limits, answers, engine, 0) == p;
    assert PhaseUpTo(setup, [call], limits, answers, engine, 1) == Extended(p, CallTaken(p, setup, call, limits, answers(0)));
  }

  lemma OneStep(setup: D.Setup, engine: EngineState, call: ToolCall, limits: ToolLimits, world: D.CallWorld)
    ensures var d := D.DispatchedCall(setup, call, limits, world, engine.allowed, engine.store);
            RoundTaken(Unlimited(limits), setup, Start(engine), AskFor(call, world)).records
            == [ToolStep([CallChunk(call)], ZERO_USAGE, 1, [Called(call, d.outcome)])]
  {
    var request, round := Unlimited(limits), AskFor(call, world);
    NothingReached(request, Start(engine), round);
    OneAsked(call);
    OnePhase(setup, call, limits, world, engine, round.calls);
  }

  /** What the turn leaves: one step with one call. */
  lemma OneCallEnds(setup: D.Setup, engine: EngineState, call: ToolCall, limits: ToolLimits, world: D.CallWorld)
    ensures var d := D.DispatchedCall(setup, call, limits, world, engine.allowed, engine.store);
            Ended(Unlimited(limits), setup, engine, [AskFor(call, world)]).records
            == [ToolStep([CallChunk(call)], ZERO_USAGE, 1, [Called(call, d.outcome)])]
  {
    var request, rounds := Unlimited(limits), [AskFor(call, world)];
    OneStep(setup, engine, call, limits, world);
    assert StateAfter(request, setup, engine, rounds, 0) == Start(engine);
    assert StateAfter(request, setup, engine, rounds, 1) == RoundTaken(request, setup, Start(engine), rounds[0]);
  }

  lemma SkippedHooksPass(hooks: seq<H.RegisteredHook>, defaultMs: nat, args: string, pre: H.PreAnswers)
    requires forall i, a :: pre(i, a) == H.Skip
    ensures H.ToolPre(hooks, defaultMs, args, pre) == H.Proceed
  {
    H.ToolPreFailsClosed(hooks, defaultMs, args, pre);
  }

  /** The call is answered with what the post hooks make of the tool's result. */
  lemma PassingCall(setup: D.Setup, call: ToolCall, limits: ToolLimits, execution: D.Execution, token: string, post: H.PostAnswers, engine: EngineState)
    requires call.name in setup.tools && execution.Ran?
    ensures D.DispatchedCall(setup, call, limits, Passing(execution, token, post), engine.allowed, engine.store).outcome
         == D.Executed(D.Posted(setup, D.RawResult(setup, call.callId, limits, execution, token), post), execution.emissions)
  {
    var world := Passing(execution, token, post);
    SkippedHooksPass(setup.hooks, setup.hookTimeoutMs, call.arguments, world.pre);
    assert world.prepare(call.arguments) == D.Valid(D.Effects([]), execution);
  }

  // ----- when every history stays linear -----

  /** In every call of every round the post hooks answer like this. */
  ghost predicate AnsweredBy(rounds: seq<Round>, post: H.PostAnswers) {
    forall round <- rounds, i: nat :: round.calls(i).world.post == post
  }

  /** Whatever the turn is, it keeps linear histories linear. */
  ghost predicate AlwaysLinear(setup: D.Setup, post: H.PostAnswers) {
    forall request, engine, rounds, history :: AnsweredBy(rounds, post) && Linear(history) ==> LeavesLinear(request, setup, engine, rounds, history)
  }

  predicate LeavesLinear(request: TurnRequest, setup: D.Setup, engine: EngineState, rounds: seq<Round>, history: seq<Message>) {
    Linear(history + TurnMessages(request, setup.hooks, Ended(request, setup, engine, rounds)))
  }

  lemma AnsweredKeeps(setup: D.Setup, rounds: seq<Round>, post: H.PostAnswers)
    requires AnsweredBy(rounds, post) && D.KeepsShownIds(setup, post)
    ensures IdsKept(setup, rounds)
  {
    forall round <- rounds ensures HooksKeepIds(setup, round.calls) {
      forall i: nat ensures D.KeepsShownIds(setup, round.calls(i).world.post) {
        assert round.calls(i).world.post == post;
      }
    }
  }

  /** A call that is answered under another id leaves a history that is not linear. */
  lemma RenamedBreaks(setup: D.Setup, engine: EngineState, call: ToolCall, limits: ToolLimits, world: D.CallWorld)
    requires var o := D.DispatchedCall(setup, call, limits, world, engine.allowed, engine.store).outcome;
             o.Executed? && o.result.callId != call.callId
    ensures !LeavesLinear(Unlimited(limits), setup, engine, [AskFor(call, world)], [])
  {
    var d := D.DispatchedCall(setup, call, limits, world, engine.allowed, engine.store);
    OneCallEnds(setup, engine, call, limits, world);
    OneAsked(call);
    NotSound(ToolStep([CallChunk(call)], ZERO_USAGE, 1, [Called(call, d.outcome)]), call, d.outcome);
    HistoryIsLinearIff(Unlimited(limits), setup, engine, [AskFor(call, world)], []);
  }

  lemma NotSound(r: StepRecord, call: ToolCall, outcome: D.Outcome)
    requires r.ToolStep? && r.calls == [Called(call, outcome)] && outcome.Executed? && outcome.result.callId != call.callId
    ensures !AllSound([r])
  {}

  lemma AskedIsAnsweredBy(call: ToolCall, execution: D.Execution, token: string, post: H.PostAnswers)
    ensures AnsweredBy([AskFor(call, Passing(execution, token, post))], post)
  {}

  /** A result whose id the hooks change can be had in a turn. */
  lemma ShownBreaks(setup: D.Setup, post: H.PostAnswers, engine: EngineState, callId: string, limits: ToolLimits, execution: D.Execution, token: string)
    requires setup.tools != [] && execution.Ran?
    requires D.Posted(setup, D.RawResult(setup, callId, limits, execution, token), post).callId != callId
    ensures !AlwaysLinear(setup, post)
  {
    var call := ToolCall(callId, setup.tools[0], "");
    var world := Passing(execution, token, post);
    PassingCall(setup, call, limits, execution, token, post, engine);
    RenamedBreaks(setup, engine, call, limits, world);
    AskedIsAnsweredBy(call, execution, token, post);
  }

  /** Every turn keeps every linear history linear if and only if the post hooks, together, keep the id of every result
      that they can be shown. */
  lemma LinearForAllIff(setup: D.Setup, post: H.PostAnswers)
    ensures AlwaysLinear(setup, post) <==> D.KeepsShownIds(setup, post)
  {
    if D.KeepsShownIds(setup, post) {
      forall request, engine, rounds, history | AnsweredBy(rounds, post) && Linear(history)
        ensures LeavesLinear(request, setup, engine, rounds, history)
      {
        AnsweredKeeps(setup, rounds, post);
        HistoryStaysLinear(request, setup, engine, rounds, history);
      }
    } else {
      var callId, limits, execution: D.Execution, token :| setup.tools != [] && execution.Ran?
        && D.Posted(setup, D.RawResult(setup, callId, limits, execution, token), post).callId != callId;
      ShownBreaks(setup, post, EngineState({}, T.Store([], 0)), callId, limits, execution, token);
    }
  }

  // ----- a hook that breaks it -----

  /** A hook that gives every result the same id. */
  function Renaming(id: string): H.PostAnswers {
    (i: nat, r: ToolResult) => H.Value(H.Replace(r.(callId := id)))
  }

  /** With that hook on the bus, the tool message that answers a call does not carry the call's id. */
  lemma RenamingHookBreaks(setup: D.Setup, engine: EngineState, call: ToolCall, limits: ToolLimits, execution: D.Execution, token: string, id: string)
    requires setup.hooks == [H.RegisteredHook("rename", None, false, false, true)] && call.name in setup.tools
    requires execution.Ran? && id != call.callId
    ensures var messages := AllMessages(Ended(Unlimited(limits), setup, engine, [AskFor(call, Passing(execution, token, Renaming(id)))]).records);
            && |messages| == 2 && messages[0] == AssistantMessage([], [call])
            && messages[1].ToolMessage? && messages[1].callId == id
    ensures !LeavesLinear(Unlimited(limits), setup, engine, [AskFor(call, Passing(execution, token, Renaming(id)))], [])
  {
    var world := Passing(execution, token, Renaming(id));
    PassingCall(setup, call, limits, execution, token, Renaming(id), engine);
    var raw := D.RawResult(setup, call.callId, limits, execution, token);
    assert H.ToolPost(setup.hooks, raw, Renaming(id), 1) == raw.(callId := id);
    RenamedBreaks(setup, engine, call, limits, world);
    OneCallEnds(setup, engine, call, limits, world);
    OneCallMessages(call, D.DispatchedCall(setup, call, limits, world, engine.allowed, engine.store).outcome);
  }

  lemma OneCallMessages(call: ToolCall, outcome: D.Outcome)
    ensures AllMessages([ToolStep([CallChunk(call)], ZERO_USAGE, 1, [Called(call, outcome)])])
         == [AssistantMessage([], [call]), MessageOf(Called(call, outcome))]
  {
    OneAsked(call);
    var c, r := Called(call, outcome), ToolStep([CallChunk(call)], ZERO_USAGE, 1, [Called(call, outcome)]);
    assert [c][..0] == [] && MessagesOf([c]) == [MessageOf(c)];
    assert [r][..0] == [] && AllMessages([r]) == [] + StepMessages(r);
  }

  // ----- a call that is started and does not run -----

  /** Of an unknown tool a turn reports start and finish, although nothing ran. */
  lemma UnknownIsStarted(setup: D.Setup, call: ToolCall, limits: ToolLimits, world: D.CallWorld, engine: EngineState, step: nat)
    requires call.name !in setup.tools
    ensures var d := D.DispatchedCall(setup, call, limits, world, engine.allowed, engine.store);
            && !d.ran && d.outcome.Executed?
            && RecordEvents(Called(call, d.outcome), step) == [ToolStarted(call, step), ToolFinished(d.outcome.result)]
  {
    assert [ToolStarted(call, step)] + [] + [] == [ToolStarted(call, step)];
  }
}
