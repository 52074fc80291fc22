/** The tool dispatcher (packages/core/src/dispatch.ts): hooks, schema, gate, execution, truncation, hooks. */
module Dispatch {
  import opened Text
  import opened Budget
  import opened Events
  import T = Truncate
  import H = Hooks
  import P = Permissions

  datatype Continuable = Continuable(title: string, text: string)

  /** What is put to the gate and to the store, each in order. */
  datatype Traffic = Traffic(requests: seq<P.Request>, kept: seq<T.Entry>)

  /** How running a tool ends, and what the calls of its subagent, which shares the gate and the store, have put to
      them by then. No other tool reaches either. */
  datatype Execution =
    | Threw(undeclared: bool, message: string, delegated: Traffic)
    | Ran(ok: bool, content: seq<T.Block>, error: Option<string>, emissions: seq<Emission>, continuable: Option<Continuable>,
          delegated: Traffic)

  datatype Declared = Unknown(message: string) | Effects(effects: seq<P.Effect>)

  /** What a tool makes of arguments: its schema refuses them, or it declares effects and can run. */
  datatype Prepared = Invalid(issues: seq<string>) | Valid(declared: Declared, execution: Execution)

  /** What everything outside the engine answers during one call. */
  datatype CallWorld = CallWorld(
    pre: H.PreAnswers, prepare: string -> Prepared, resolve: P.Resolver, response: P.Response, token: string, post: H.PostAnswers)

  datatype Outcome = Executed(result: ToolResult, emissions: seq<Emission>) | Stopped(source: Source, reason: Reason, abort: bool)

  /** A call: its outcome, what the user was asked, whether the tool ran, and the state it leaves. */
  datatype Dispatched = Dispatched(outcome: Outcome, asked: Option<seq<P.Effect>>, ran: bool, allowed: set<string>, store: T.Store)

  /** What does not change from call to call. */
  datatype Setup = Setup(tools: seq<string>, hooks: seq<H.RegisteredHook>, hookTimeoutMs: nat, gate: P.Config, bounds: T.Bounds)

  datatype Failure =
    | UnknownTool(tools: seq<string>)
    | InvalidArguments(issues: seq<string>)
    | UnknownEffects(message: string)
    | ActedUndeclared(message: string)
    | Failed(message: string)

  function FailureText(name: string, failure: Failure): string {
    match failure
    case UnknownTool(tools) => "unknown tool '" + name + "'. Available tools: " + Join(tools, ", ") + "."
    case InvalidArguments(issues) => "invalid arguments for '" + name + "':\n" + Join(issues, "\n")
    case UnknownEffects(message) => "could not determine what '" + name + "' would do: " + message
    case ActedUndeclared(message) => message + ". This is a bug in the '" + name + "' tool."
    case Failed(message) => "'" + name + "' failed: " + message
  }

  function ErrorResult(callId: string, text: string): ToolResult {
    ToolResult(callId, false, [T.TextBlock(text)], false, None, Some(text))
  }

  function FailedCall(call: ToolCall, failure: Failure): Outcome {
    Executed(ErrorResult(call.callId, FailureText(call.name, failure)), [])
  }

  // ----- the result of a tool that ran -----

  function TruncateOptions(limits: ToolLimits): T.Options {
    T.Options(limits.maxResultBytes, T.Both, T.DEFAULT_MARKER)
  }

  /** The registration of the full text, when there is one and the result was cut. */
  function ToRegister(cut: T.Truncated, execution: Execution, token: string): Option<T.Entry>
    requires execution.Ran?
  {
    match execution.continuable
    case None => None
    case Some(c) => if cut.truncation.None? then None else Some(T.Entry(token, c.title, c.text))
  }

  /** The token, if the store takes the text. */
  function Issued(entry: Option<T.Entry>, bounds: T.Bounds): Option<string> {
    match entry
    case None => None
    case Some(e) => if |e.text| > bounds.maxBytes then None else Some(e.token)
  }

  function StoredIn(store: T.Store, bounds: T.Bounds, entry: Option<T.Entry>): T.Store {
    match entry
    case None => store
    case Some(e) => T.Registered(store, bounds, e)
  }

  /** The result, given what was cut and which token was issued. */
  function ResultOf(callId: string, execution: Execution, cut: T.Truncated, issued: Option<string>): ToolResult
    requires execution.Ran?
  {
    match cut.truncation
    case None => ToolResult(callId, execution.ok, cut.content, false, None, execution.error)
    case Some(t) => ToolResult(callId, execution.ok, cut.content, true, Some(Cut(t.originalBytes, t.returnedBytes, issued)), execution.error)
  }

  /** The result of a tool, before the hooks see it. */
  function RawResult(setup: Setup, callId: string, limits: ToolLimits, execution: Execution, token: string): ToolResult
    requires execution.Ran?
  {
    var cut := T.TruncatedContent(execution.content, TruncateOptions(limits));
    ResultOf(callId, execution, cut, Issued(ToRegister(cut, execution, token), setup.bounds))
  }

  /** What the hooks make of it. */
  function Posted(setup: Setup, result: ToolResult, post: H.PostAnswers): ToolResult {
    H.ToolPost(setup.hooks, result, post, |setup.hooks|)
  }

  // ----- the stages -----

  /** What the gate remembers behind it. */
  function AllowedThen(setup: Setup, traffic: Traffic, allowed: set<string>): set<string> {
    P.Memory(setup.gate, allowed, traffic.requests, |traffic.requests|)
  }

  /** What the store holds behind it. */
  function StoreThen(setup: Setup, traffic: Traffic, store: T.Store): T.Store {
    T.RegisteredAll(store, setup.bounds, traffic.kept)
  }

  /** What a tool that has run comes to, on the memory and the store that it left. */
  function Answered(setup: Setup, call: ToolCall, limits: ToolLimits, world: CallWorld, execution: Execution, asked: Option<seq<P.Effect>>,
                    allowed: set<string>, store: T.Store): Dispatched
  {
    match execution
    case Threw(undeclared, message, _) =>
      Dispatched(FailedCall(call, if undeclared then ActedUndeclared(message) else Failed(message)), asked, true, allowed, store)
    case Ran(_, content, _, emissions, _, _) =>
      Dispatched(Executed(Posted(setup, RawResult(setup, call.callId, limits, execution, world.token), world.post), emissions),
                 asked, true, allowed,
                 StoredIn(store, setup.bounds, ToRegister(T.TruncatedContent(content, TruncateOptions(limits)), execution, world.token)))
  }

  /** What a granted call comes to. */
  function Performed(setup: Setup, call: ToolCall, limits: ToolLimits, world: CallWorld, execution: Execution, ruling: P.Ruling, store: T.Store): Dispatched {
    Answered(setup, call, limits, world, execution, ruling.asked,
             AllowedThen(setup, execution.delegated, ruling.allowed), StoreThen(setup, execution.delegated, store))
  }

  function RequestOf(world: CallWorld, effects: seq<P.Effect>): P.Request {
    P.Request(effects, world.resolve, world.response)
  }

  /** What a call with these arguments comes to, behind the hooks. */
  function Checked(setup: Setup, call: ToolCall, args: string, limits: ToolLimits, world: CallWorld, allowed: set<string>, store: T.Store): Dispatched {
    match world.prepare(args)
    case Invalid(issues) => Dispatched(FailedCall(call, InvalidArguments(issues)), None, false, allowed, store)
    case Valid(Unknown(message), _) => Dispatched(FailedCall(call, UnknownEffects(message)), None, false, allowed, store)
    case Valid(Effects(effects), execution) =>
      var ruling := P.Authorized(setup.gate, RequestOf(world, effects), allowed);
      match ruling.authorization
      case Refused(reason, abort) => Dispatched(Stopped(Gate, reason, abort), ruling.asked, false, ruling.allowed, store)
      case Granted => Performed(setup, call, limits, world, execution, ruling, store)
  }

  function DispatchedCall(setup: Setup, call: ToolCall, limits: ToolLimits, world: CallWorld, allowed: set<string>, store: T.Store): Dispatched {
    if call.name !in setup.tools then Dispatched(FailedCall(call, UnknownTool(setup.tools)), None, false, allowed, store)
    else
      var verdict := H.ToolPre(setup.hooks, setup.hookTimeoutMs, call.arguments, world.pre);
      if verdict.Denied? then Dispatched(Stopped(Hook, verdict.reason, false), None, false, allowed, store)
      else
        var args := if verdict.Rewritten? then verdict.arguments else call.arguments;
        Checked(setup, call, args, limits, world, allowed, store)
  }

  /** The engine a call is dispatched in. */
  class Engine {
    const tools: seq<string>
    const hooks: H.HookBus
    const gate: P.PermissionGate
    const continuations: T.ContinuationStore

    constructor (tools: seq<string>, hooks: H.HookBus, gate: P.PermissionGate, continuations: T.ContinuationStore)
      ensures this.tools == tools && this.hooks == hooks && this.gate == gate && this.continuations == continuations
    {
      this.tools, this.hooks, this.gate, this.continuations := tools, hooks, gate, continuations;
    }

    function SetupOf(): Setup
      reads hooks
    {
      Setup(tools, hooks.hooks, hooks.defaultTimeoutMs, gate.config, continuations.Limits())
    }

    method DispatchToolCall(call: ToolCall, limits: ToolLimits, world: CallWorld) returns (d: Dispatched)
      modifies gate, continuations
      ensures d == DispatchedCall(SetupOf(), call, limits, world, old(gate.sessionAllowed), old(continuations.State()))
      ensures gate.sessionAllowed == d.allowed && continuations.State() == d.store
    {
      if call.name !in tools {
        return Dispatched(FailedCall(call, UnknownTool(tools)), None, false, gate.sessionAllowed, continuations.State());
      }
      var verdict := hooks.FireToolPre(call.arguments, world.pre);
      if verdict.Denied? {
        return Dispatched(Stopped(Hook, verdict.reason, false), None, false, gate.sessionAllowed, continuations.State());
      }
      var effectiveArgs := if verdict.Rewritten? then verdict.arguments else call.arguments;
      d := RunChecked(call, effectiveArgs, limits, world);
    }

    method RunChecked(call: ToolCall, args: string, limits: ToolLimits, world: CallWorld) returns (d: Dispatched)
      modifies gate, continuations
      ensures d == Checked(SetupOf(), call, args, limits, world, old(gate.sessionAllowed), old(continuations.State()))
      ensures gate.sessionAllowed == d.allowed && continuations.State() == d.store
    {
      var prepared := world.prepare(args);
      if prepared.Invalid? {
        return Dispatched(FailedCall(call, InvalidArguments(prepared.issues)), None, false, gate.sessionAllowed, continuations.State());
      }
      if prepared.declared.Unknown? {
        return Dispatched(FailedCall(call, UnknownEffects(prepared.declared.message)), None, false, gate.sessionAllowed, continuations.State());
      }
      var ruling := gate.Authorize(RequestOf(world, prepared.declared.effects));
      if ruling.authorization.Refused? {
        return Dispatched(Stopped(Gate, ruling.authorization.reason, ruling.authorization.abort), ruling.asked, false, ruling.allowed, continuations.State());
      }
      d := Perform(call, limits, world, prepared.execution, ruling);
    }

    method Perform(call: ToolCall, limits: ToolLimits, world: CallWorld, execution: Execution, ruling: P.Ruling) returns (d: Dispatched)
      requires gate.sessionAllowed == ruling.allowed
      modifies gate, continuations
      ensures d == Performed(SetupOf(), call, limits, world, execution, ruling, old(continuations.State()))
      ensures gate.sessionAllowed == d.allowed && continuations.State() == d.store
    {
      Delegate(execution.delegated);
      d := Answer(call, limits, world, execution, ruling.asked);
    }

    /** What running the tool does to the gate and the store. */
    method Delegate(delegated: Traffic)
      modifies gate, continuations
      ensures gate.sessionAllowed == AllowedThen(SetupOf(), delegated, old(gate.sessionAllowed))
      ensures continuations.State() == StoreThen(SetupOf(), delegated, old(continuations.State()))
    {
      for i := 0 to |delegated.requests|
        invariant gate.sessionAllowed == P.Memory(gate.config, old(gate.sessionAllowed), delegated.requests, i)
        invariant continuations.State() == old(continuations.State())
      {
        var _ := gate.Authorize(delegated.requests[i]);
      }
      for i := 0 to |delegated.kept|
        invariant gate.sessionAllowed == AllowedThen(SetupOf(), delegated, old(gate.sessionAllowed))
        invariant continuations.State() == T.RegisteredAll(old(continuations.State()), continuations.Limits(), delegated.kept[..i])
      {
        var entry := delegated.kept[i];
        assert delegated.kept[..i + 1] == delegated.kept[..i] + [entry];
        T.RegisteredNext(old(continuations.State()), continuations.Limits(), delegated.kept[..i], entry);
        var _ := continuations.Register(entry.token, entry.title, entry.text);
      }
      assert delegated.kept[..|delegated.kept|] == delegated.kept;
    }

    method Answer(call: ToolCall, limits: ToolLimits, world: CallWorld, execution: Execution, asked: Option<seq<P.Effect>>) returns (d: Dispatched)
      modifies continuations
      ensures d == Answered(SetupOf(), call, limits, world, execution, asked, gate.sessionAllowed, old(continuations.State()))
      ensures continuations.State() == d.store && d.allowed == gate.sessionAllowed
    {
      if execution.Threw? {
        var failure := if execution.undeclared then ActedUndeclared(execution.message) else Failed(execution.message);
        return Dispatched(FailedCall(call, failure), asked, true, gate.sessionAllowed, continuations.State());
      }
      var content, truncation := T.TruncateContent(execution.content, TruncateOptions(limits));
      var continuation: Option<string> := None;
      if truncation.Some? && execution.continuable.Some? {
        continuation := continuations.Register(world.token, execution.continuable.value.title, execution.continuable.value.text);
      }
      var result := ResultOf(call.callId, execution, T.Truncated(content, truncation), continuation);
      var finalResult := hooks.FireToolPost(result, world.post);
      d := Dispatched(Executed(finalResult, execution.emissions), asked, true, gate.sessionAllowed, continuations.State());
    }
  }

  // ----- what dispatching guarantees -----

  /** The arguments behind the hooks: those of the last rewrite. */
  function EffectiveArgs(setup: Setup, call: ToolCall, world: CallWorld): string {
    H.Shown(setup.hooks, call.arguments, world.pre, |setup.hooks|)
  }

  predicate HooksDeny(setup: Setup, call: ToolCall, world: CallWorld) {
    H.ToolPre(setup.hooks, setup.hookTimeoutMs, call.arguments, world.pre).Denied?
  }

  /** The schema accepts the effective arguments and their effects can be told. */
  predicate Declares(prepared: Prepared) {
    prepared.Valid? && prepared.declared.Effects?
  }

  predicate GateGrants(setup: Setup, world: CallWorld, args: string, allowed: set<string>)
    requires Declares(world.prepare(args))
  {
    P.Authorized(setup.gate, RequestOf(world, world.prepare(args).declared.effects), allowed).authorization.Granted?
  }

  lemma BehindHooks(setup: Setup, call: ToolCall, limits: ToolLimits, world: CallWorld, allowed: set<string>, store: T.Store)
    requires call.name in setup.tools && !HooksDeny(setup, call, world)
    ensures DispatchedCall(setup, call, limits, world, allowed, store)
         == Checked(setup, call, EffectiveArgs(setup, call, world), limits, world, allowed, store)
  {
    H.ToolPreFailsClosed(setup.hooks, setup.hookTimeoutMs, call.arguments, world.pre);
  }

  /** A tool runs exactly when it is registered, no hook denies the call, the schema accepts the arguments
      as the hooks left them, and the gate grants the effects declared for those arguments. */
  lemma RunsOnlyWhenAuthorized(setup: Setup, call: ToolCall, limits: ToolLimits, world: CallWorld, allowed: set<string>, store: T.Store)
    ensures DispatchedCall(setup, call, limits, world, allowed, store).ran
       <==> && call.name in setup.tools && !HooksDeny(setup, call, world)
            && Declares(world.prepare(EffectiveArgs(setup, call, world)))
            && GateGrants(setup, world, EffectiveArgs(setup, call, world), allowed)
  {
    if call.name in setup.tools && !HooksDeny(setup, call, world) {
      BehindHooks(setup, call, limits, world, allowed, store);
    }
  }

  /** The user is asked only about a call that no hook denies and whose arguments are valid; a call whose tool does
      not run leaves the store alone and, when nobody is asked, the memory too. */
  lemma AskedOnlyBehindHooks(setup: Setup, call: ToolCall, limits: ToolLimits, world: CallWorld, allowed: set<string>, store: T.Store)
    ensures var d := DispatchedCall(setup, call, limits, world, allowed, store);
            && (d.asked.Some? ==> call.name in setup.tools && !HooksDeny(setup, call, world)
                                  && Declares(world.prepare(EffectiveArgs(setup, call, world))))
            && (!d.ran && d.asked.None? ==> d.allowed == allowed)
            && (!d.ran ==> d.store == store)
            && (d.outcome.Stopped? ==> !d.ran)
  {
    if call.name in setup.tools && !HooksDeny(setup, call, world) {
      BehindHooks(setup, call, limits, world, allowed, store);
    }
  }

  /** The requests a call puts to the gate, in order: its own, when it gets that far, and behind a grant those of the
      calls that its tool delegates. */
  function CallRequests(setup: Setup, call: ToolCall, world: CallWorld, allowed: set<string>): seq<P.Request> {
    if call.name !in setup.tools || HooksDeny(setup, call, world) then []
    else PreparedRequests(setup, world, world.prepare(EffectiveArgs(setup, call, world)), allowed)
  }

  function PreparedRequests(setup: Setup, world: CallWorld, prepared: Prepared, allowed: set<string>): seq<P.Request> {
    if !Declares(prepared) then []
    else
      var own := RequestOf(world, prepared.declared.effects);
      if P.Authorized(setup.gate, own, allowed).authorization.Granted? then [own] + prepared.execution.delegated.requests else [own]
  }

  lemma {:induction false} MemoryAppend(c: P.Config, start: set<string>, a: seq<P.Request>, b: seq<P.Request>, n: nat)
    requires n <= |b|
    ensures P.Memory(c, start, a + b, |a| + n) == P.Memory(c, P.Memory(c, start, a, |a|), b, n)
  {
    if n == 0 {
      MemoryPrefix(c, start, a, b, |a|);
    } else {
      MemoryAppend(c, start, a, b, n - 1);
      assert (a + b)[|a| + n - 1] == b[n - 1];
    }
  }

  lemma {:induction false} MemoryPrefix(c: P.Config, start: set<string>, a: seq<P.Request>, b: seq<P.Request>, n: nat)
    requires n <= |a|
    ensures P.Memory(c, start, a + b, n) == P.Memory(c, start, a, n)
  {
    if n > 0 {
      MemoryPrefix(c, start, a, b, n - 1);
    }
  }

  /** The memory a call leaves is that of a run of the gate over its requests. */
  lemma CallIsGateRun(setup: Setup, call: ToolCall, limits: ToolLimits, world: CallWorld, allowed: set<string>, store: T.Store)
    ensures var requests := CallRequests(setup, call, world, allowed);
            DispatchedCall(setup, call, limits, world, allowed, store).allowed == P.Memory(setup.gate, allowed, requests, |requests|)
  {
    if call.name in setup.tools && !HooksDeny(setup, call, world) {
      BehindHooks(setup, call, limits, world, allowed, store);
      CheckedIsGateRun(setup, call, EffectiveArgs(setup, call, world), limits, world, allowed, store);
    }
  }

  lemma CheckedIsGateRun(setup: Setup, call: ToolCall, args: string, limits: ToolLimits, world: CallWorld, allowed: set<string>, store: T.Store)
    ensures var requests := PreparedRequests(setup, world, world.prepare(args), allowed);
            Checked(setup, call, args, limits, world, allowed, store).allowed == P.Memory(setup.gate, allowed, requests, |requests|)
  {
    var prepared := world.prepare(args);
    if Declares(prepared) {
      var own, more := RequestOf(world, prepared.declared.effects), prepared.execution.delegated.requests;
      OneRequest(setup.gate, allowed, own);
      MemoryAppend(setup.gate, allowed, [own], more, |more|);
    }
  }

  lemma OneRequest(c: P.Config, allowed: set<string>, request: P.Request)
    ensures P.Memory(c, allowed, [request], 1) == P.Authorized(c, request, allowed).allowed
  {
    assert P.Memory(c, allowed, [request], 0) == allowed;
  }

  /** The texts a call registers, in order: those that its tool delegates, and the rest of its own result. */
  function CallEntries(setup: Setup, call: ToolCall, limits: ToolLimits, world: CallWorld, allowed: set<string>): seq<T.Entry> {
    if call.name !in setup.tools || HooksDeny(setup, call, world) then []
    else PreparedEntries(setup, limits, world, world.prepare(EffectiveArgs(setup, call, world)), allowed)
  }

  function PreparedEntries(setup: Setup, limits: ToolLimits, world: CallWorld, prepared: Prepared, allowed: set<string>): seq<T.Entry> {
    if !Declares(prepared) || P.Authorized(setup.gate, RequestOf(world, prepared.declared.effects), allowed).authorization.Refused? then []
    else prepared.execution.delegated.kept + OwnEntry(limits, prepared.execution, world.token)
  }

  function OwnEntry(limits: ToolLimits, execution: Execution, token: string): seq<T.Entry> {
    if execution.Threw? then []
    else match ToRegister(T.TruncatedContent(execution.content, TruncateOptions(limits)), execution, token)
      case None => []
      case Some(e) => [e]
  }

  /** The store a call leaves is that of a run of the store over its registrations. */
  lemma CallIsStoreRun(setup: Setup, call: ToolCall, limits: ToolLimits, world: CallWorld, allowed: set<string>, store: T.Store)
    ensures DispatchedCall(setup, call, limits, world, allowed, store).store
         == T.RegisteredAll(store, setup.bounds, CallEntries(setup, call, limits, world, allowed))
  {
    if call.name in setup.tools && !HooksDeny(setup, call, world) {
      BehindHooks(setup, call, limits, world, allowed, store);
      CheckedIsStoreRun(setup, call, EffectiveArgs(setup, call, world), limits, world, allowed, store);
    }
  }

  lemma CheckedIsStoreRun(setup: Setup, call: ToolCall, args: string, limits: ToolLimits, world: CallWorld, allowed: set<string>, store: T.Store)
    ensures Checked(setup, call, args, limits, world, allowed, store).store
         == T.RegisteredAll(store, setup.bounds, PreparedEntries(setup, limits, world, world.prepare(args), allowed))
  {
    var prepared := world.prepare(args);
    if Declares(prepared) {
      StoredThen(setup, limits, prepared.execution, world.token, store);
    }
  }

  lemma StoredThen(setup: Setup, limits: ToolLimits, execution: Execution, token: string, store: T.Store)
    ensures T.RegisteredAll(store, setup.bounds, execution.delegated.kept + OwnEntry(limits, execution, token))
         == if execution.Threw? then StoreThen(setup, execution.delegated, store)
            else StoredIn(StoreThen(setup, execution.delegated, store), setup.bounds,
                          ToRegister(T.TruncatedContent(execution.content, TruncateOptions(limits)), execution, token))
  {
    var own := OwnEntry(limits, execution, token);
    if own == [] {
      assert execution.delegated.kept + own == execution.delegated.kept;
    } else {
      T.RegisteredNext(store, setup.bounds, execution.delegated.kept, own[0]);
    }
  }

  function CallTraffic(setup: Setup, call: ToolCall, limits: ToolLimits, world: CallWorld, allowed: set<string>): Traffic {
    Traffic(CallRequests(setup, call, world, allowed), CallEntries(setup, call, limits, world, allowed))
  }

  /** A stopped call ends the turn exactly when the user aborted it, and it is the gate that was asked. */
  predicate StopsFairly(o: Outcome) {
    o.Stopped? ==> (o.abort <==> o.reason.UserAborted?)
                   && (o.source.Hook? <==> o.reason.HookTimedOut? || o.reason.HookFailed? || o.reason.HookDenied?)
  }

  lemma StoppedFairly(setup: Setup, call: ToolCall, limits: ToolLimits, world: CallWorld, allowed: set<string>, store: T.Store)
    ensures StopsFairly(DispatchedCall(setup, call, limits, world, allowed, store).outcome)
  {
    if call.name in setup.tools {
      H.DenialIsOfHook(setup.hooks, setup.hookTimeoutMs, call.arguments, world.pre);
    }
  }

  /** A call is reported as executed although its tool did not run exactly when the tool is not registered,
      or the arguments behind the hooks are refused by its schema, or their effects cannot be told. */
  lemma ExecutedWithoutRunning(setup: Setup, call: ToolCall, limits: ToolLimits, world: CallWorld, allowed: set<string>, store: T.Store)
    ensures var d := DispatchedCall(setup, call, limits, world, allowed, store);
            d.outcome.Executed? && !d.ran
            <==> call.name !in setup.tools
                 || (!HooksDeny(setup, call, world) && !Declares(world.prepare(EffectiveArgs(setup, call, world))))
  {
    if call.name in setup.tools && !HooksDeny(setup, call, world) {
      BehindHooks(setup, call, limits, world, allowed, store);
    }
  }

  /** A call that is answered without a result of its tool: it failed, and says why. */
  predicate Fails(call: ToolCall, o: Outcome) {
    && o.Executed? && o.emissions == [] && o.result.callId == call.callId && !o.result.ok && !o.result.truncated && o.result.truncation.None?
    && o.result.error.Some? && o.result.error.value != "" && o.result.content == [T.TextBlock(o.result.error.value)]
  }

  /** What a tool reports, with its content cut to the budget from both ends, and what is said of the cut. */
  predicate IsRaw(callId: string, limits: ToolLimits, execution: Execution, r: ToolResult)
    requires execution.Ran?
  {
    && r.callId == callId && r.ok == execution.ok && r.error == execution.error
    && r.content == T.TruncatedContent(execution.content,
                                       T.Options(limits.maxResultBytes, T.Both, "[... elided by the engine: output exceeded the result budget ...]")).content
  }

  /** The outcome of a call whose arguments are known and whose effects the gate grants. */
  predicate IsPerformed(setup: Setup, call: ToolCall, limits: ToolLimits, world: CallWorld, execution: Execution, o: Outcome) {
    if execution.Threw? then Fails(call, o)
    else
      var raw := RawResult(setup, call.callId, limits, execution, world.token);
      && o.Executed? && o.emissions == execution.emissions
      && IsRaw(call.callId, limits, execution, raw) && o.result == H.ToolPost(setup.hooks, raw, world.post, |setup.hooks|)
  }

  /** The outcome of a call that no hook denies. */
  predicate IsChecked(setup: Setup, call: ToolCall, args: string, limits: ToolLimits, world: CallWorld, allowed: set<string>, o: Outcome) {
    match world.prepare(args)
    case Valid(Effects(effects), execution) =>
      (match P.Authorized(setup.gate, RequestOf(world, effects), allowed).authorization
       case Refused(reason, abort) => o == Stopped(Gate, reason, abort)
       case Granted => IsPerformed(setup, call, limits, world, execution, o))
    case _ => Fails(call, o)
  }

  /** What a call comes to, stage by stage. */
  lemma OutcomeIs(setup: Setup, call: ToolCall, limits: ToolLimits, world: CallWorld, allowed: set<string>, store: T.Store)
    ensures var o := DispatchedCall(setup, call, limits, world, allowed, store).outcome;
            if call.name !in setup.tools then Fails(call, o)
            else match H.ToolPre(setup.hooks, setup.hookTimeoutMs, call.arguments, world.pre)
              case Denied(reason) => o == Stopped(Hook, reason, false)
              case Rewritten(args) => IsChecked(setup, call, args, limits, world, allowed, o)
              case Proceed => IsChecked(setup, call, call.arguments, limits, world, allowed, o)
  {}

  /** Together the `tool.post` hooks keep the id of every result that they can be shown. */
  ghost predicate KeepsShownIds(setup: Setup, post: H.PostAnswers) {
    forall callId, limits, execution: Execution, token | setup.tools != [] && execution.Ran? ::
      Posted(setup, RawResult(setup, callId, limits, execution, token), post).callId == callId
  }

  /** They do when each of them does. */
  lemma EachKeepsIds(setup: Setup, post: H.PostAnswers)
    requires H.KeepsCallIds(setup.hooks, post)
    ensures KeepsShownIds(setup, post)
  {
    forall callId, limits, execution: Execution, token | execution.Ran?
      ensures Posted(setup, RawResult(setup, callId, limits, execution, token), post).callId == callId
    {
      H.ToolPostKeepsId(setup.hooks, RawResult(setup, callId, limits, execution, token), post, |setup.hooks|);
    }
  }

  /** Whatever happens, an executed call answers with the id it was called with, if the hooks let it. */
  lemma ResultKeepsCallId(setup: Setup, call: ToolCall, limits: ToolLimits, world: CallWorld, allowed: set<string>, store: T.Store)
    requires KeepsShownIds(setup, world.post)
    ensures var o := DispatchedCall(setup, call, limits, world, allowed, store).outcome;
            o.Executed? ==> o.result.callId == call.callId
  {
    if call.name in setup.tools && !HooksDeny(setup, call, world) {
      BehindHooks(setup, call, limits, world, allowed, store);
      var prepared := world.prepare(EffectiveArgs(setup, call, world));
      if Declares(prepared) && prepared.execution.Ran? {
        assert Posted(setup, RawResult(setup, call.callId, limits, prepared.execution, world.token), world.post).callId == call.callId;
      }
    }
  }

  /** Its truncation fields agree with its marker, tell the true sizes, and are there exactly when the tool
      produced more than the budget; what is left is within the budget but for a marker line and a note. */
  lemma RawResultIs(setup: Setup, callId: string, limits: ToolLimits, execution: Execution, token: string)
    requires execution.Ran?
    ensures var r := RawResult(setup, callId, limits, execution, token);
            var dropped := T.Images(execution.content) - T.Images(r.content);
            && (r.truncated <==> r.truncation.Some?)
            && (r.truncated <==> T.TotalBytes(execution.content) > limits.maxResultBytes)
            && (r.truncated ==> r.truncation.value.originalBytes == T.TotalBytes(execution.content)
                                && r.truncation.value.returnedBytes == T.TotalBytes(r.content))
            && (!r.truncated ==> r.content == execution.content)
            && dropped >= 0
            && T.TotalBytes(r.content) <= limits.maxResultBytes + |T.MarkerLine(TruncateOptions(limits))|
                                          + (if dropped > 0 then |T.OmissionNote(dropped)| else 0)
  {
    T.TruncatedContentIs(execution.content, TruncateOptions(limits));
  }

  /** A continuation token is issued exactly for a cut result whose full text the store can hold, and the
      store a call leaves resolves it to that text, whatever the tool delegated before. */
  lemma ContinuationIsRedeemable(setup: Setup, call: ToolCall, limits: ToolLimits, world: CallWorld, execution: Execution, ruling: P.Ruling,
                                 store: T.Store, held: seq<T.Entry>)
    requires execution.Ran? && setup.bounds.maxEntries >= 1
    requires StoreThen(setup, execution.delegated, store) == T.Store(held, T.Total(held)) && !T.HasToken(held, world.token)
    ensures var r := RawResult(setup, call.callId, limits, execution, world.token);
            var after := Performed(setup, call, limits, world, execution, ruling, store).store;
            && (r.truncated && r.truncation.value.continuation.Some?
                <==> T.TotalBytes(execution.content) > limits.maxResultBytes
                     && execution.continuable.Some? && |execution.continuable.value.text| <= setup.bounds.maxBytes)
            && (r.truncated && r.truncation.value.continuation.Some? ==>
                  T.Lookup(after.entries, r.truncation.value.continuation.value)
                  == Some(T.Entry(world.token, execution.continuable.value.title, execution.continuable.value.text)))
  {
    RawResultIs(setup, call.callId, limits, execution, world.token);
    if execution.continuable.Some? && |execution.continuable.value.text| <= setup.bounds.maxBytes {
      var entry := T.Entry(world.token, execution.continuable.value.title, execution.continuable.value.text);
      T.RegisteredHolds(held, entry, setup.bounds);
      T.NewestIsFound(held, entry, setup.bounds);
    }
  }
}
