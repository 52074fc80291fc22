/** The hook bus (packages/core/src/hooks.ts). How a hook answers when it is asked is a parameter of each
    firing: a function of the hook's place on the bus and of what it is shown. */
module Hooks {
  import opened Text
  import opened Truncate
  import opened Events

  datatype RegisteredHook = RegisteredHook(name: string, timeoutMs: Option<nat>, turnStart: bool, toolPre: bool, toolPost: bool)

  /** How asking one hook ended. */
  datatype Run<+T> = Value(value: T) | Skip | Timeout | Failure(message: string)

  datatype ToolPreOutcome = Continue | Deny(reason: string) | Rewrite(arguments: string)

  datatype ToolPostOutcome = Keep | Replace(result: ToolResult)

  /** What firing `tool.pre` came to. */
  datatype PreVerdict = Proceed | Denied(reason: Reason) | Rewritten(arguments: string)

  type PreAnswers = (nat, string) -> Run<ToolPreOutcome>
  type PostAnswers = (nat, ToolResult) -> Run<ToolPostOutcome>
  type StartAnswers = nat -> Run<seq<Block>>

  // ----- tool.pre -----

  function TimeoutOf(hook: RegisteredHook, defaultMs: nat): nat {
    match hook.timeoutMs
    case Some(ms) => ms
    case None => defaultMs
  }

  /** The arguments hook `n` is shown: those of the call with the rewrites of the hooks before it. */
  function Shown(hooks: seq<RegisteredHook>, args: string, answer: PreAnswers, n: nat): string
    requires n <= |hooks|
  {
    if n == 0 then args
    else
      var before := Shown(hooks, args, answer, n - 1);
      if !hooks[n - 1].toolPre then before
      else match answer(n - 1, before)
        case Value(Rewrite(a)) => a
        case _ => before
  }

  /** Why hook `n` stops the call, when it does: a hook that cannot answer is a hook that denies. */
  function Stops(hooks: seq<RegisteredHook>, defaultMs: nat, args: string, answer: PreAnswers, n: nat): Option<Reason>
    requires n < |hooks|
  {
    var hook := hooks[n];
    if !hook.toolPre then None
    else match answer(n, Shown(hooks, args, answer, n))
      case Timeout => Some(HookTimedOut(hook.name, TimeoutOf(hook, defaultMs)))
      case Failure(message) => Some(HookFailed(hook.name, message))
      case Value(Deny(reason)) => Some(HookDenied(hook.name, reason))
      case _ => None
  }

  predicate Rewrites(hooks: seq<RegisteredHook>, args: string, answer: PreAnswers, n: nat)
    requires n < |hooks|
  {
    hooks[n].toolPre && match answer(n, Shown(hooks, args, answer, n))
                        case Value(Rewrite(_)) => true
                        case _ => false
  }

  /** The first of the hooks from `n` on that stops the call. */
  function FirstStop(hooks: seq<RegisteredHook>, defaultMs: nat, args: string, answer: PreAnswers, n: nat): Option<Reason>
    requires n <= |hooks|
    decreases |hooks| - n
  {
    if n == |hooks| then None
    else match Stops(hooks, defaultMs, args, answer, n)
      case Some(reason) => Some(reason)
      case None => FirstStop(hooks, defaultMs, args, answer, n + 1)
  }

  predicate AnyRewrites(hooks: seq<RegisteredHook>, args: string, answer: PreAnswers, n: nat)
    requires n <= |hooks|
  {
    n > 0 && (AnyRewrites(hooks, args, answer, n - 1) || Rewrites(hooks, args, answer, n - 1))
  }

  function ToolPre(hooks: seq<RegisteredHook>, defaultMs: nat, args: string, answer: PreAnswers): PreVerdict {
    match FirstStop(hooks, defaultMs, args, answer, 0)
    case Some(reason) => Denied(reason)
    case None =>
      if AnyRewrites(hooks, args, answer, |hooks|) then Rewritten(Shown(hooks, args, answer, |hooks|)) else Proceed
  }

  // ----- tool.post -----

  /** The result after the first `n` hooks: a hook that fails or is slow leaves it as it is. */
  function ToolPost(hooks: seq<RegisteredHook>, result: ToolResult, answer: PostAnswers, n: nat): ToolResult
    requires n <= |hooks|
  {
    if n == 0 then result
    else
      var before := ToolPost(hooks, result, answer, n - 1);
      if !hooks[n - 1].toolPost then before
      else match answer(n - 1, before)
        case Value(Replace(r)) => r
        case _ => before
  }

  // ----- session.turnStart -----

  function TurnStart(hooks: seq<RegisteredHook>, answer: StartAnswers, n: nat): seq<Block>
    requires n <= |hooks|
  {
    if n == 0 then []
    else
      var before := TurnStart(hooks, answer, n - 1);
      if !hooks[n - 1].turnStart then before
      else match answer(n - 1)
        case Value(blocks) => before + blocks
        case _ => before
  }

  class HookBus {
    const defaultTimeoutMs: nat
    var hooks: seq<RegisteredHook>

    constructor (defaultTimeoutMs: nat)
      ensures hooks == [] && this.defaultTimeoutMs == defaultTimeoutMs
    {
      this.defaultTimeoutMs, hooks := defaultTimeoutMs, [];
    }

    method Register(hook: RegisteredHook)
      modifies this
      ensures hooks == old(hooks) + [hook]
    {
      hooks := hooks + [hook];
    }

    method FireTurnStart(answer: StartAnswers) returns (injected: seq<Block>)
      ensures injected == TurnStart(hooks, answer, |hooks|)
    {
      injected := [];
      for i: nat := 0 to |hooks|
        invariant injected == TurnStart(hooks, answer, i)
      {
        if hooks[i].turnStart {
          match answer(i) {
            case Value(blocks) => injected := injected + blocks;
            case _ =>
          }
        }
      }
    }

    method FireToolPre(args: string, answer: PreAnswers) returns (v: PreVerdict)
      ensures v == ToolPre(hooks, defaultTimeoutMs, args, answer)
    {
      var current, rewritten := args, false;
      for i: nat := 0 to |hooks|
        invariant current == Shown(hooks, args, answer, i)
        invariant rewritten == AnyRewrites(hooks, args, answer, i)
        invariant FirstStop(hooks, defaultTimeoutMs, args, answer, i) == FirstStop(hooks, defaultTimeoutMs, args, answer, 0)
      {
        if hooks[i].toolPre {
          match answer(i, current) {
            case Timeout =>
              return Denied(HookTimedOut(hooks[i].name, TimeoutOf(hooks[i], defaultTimeoutMs)));
            case Failure(message) =>
              return Denied(HookFailed(hooks[i].name, message));
            case Skip =>
            case Value(outcome) =>
              match outcome {
                case Deny(reason) => return Denied(HookDenied(hooks[i].name, reason));
                case Rewrite(a) =>
                  current := a;
                  rewritten := true;
                case Continue =>
              }
          }
        }
      }
      v := if rewritten then Rewritten(current) else Proceed;
    }

    method FireToolPost(result: ToolResult, answer: PostAnswers) returns (r: ToolResult)
      ensures r == ToolPost(hooks, result, answer, |hooks|)
    {
      r := result;
      for i: nat := 0 to |hooks|
        invariant r == ToolPost(hooks, result, answer, i)
      {
        if hooks[i].toolPost {
          match answer(i, r) {
            case Value(Replace(replacement)) => r := replacement;
            case _ =>
          }
        }
      }
    }
  }

  // ----- what firing means -----

  lemma {:induction false} FirstStopIs(hooks: seq<RegisteredHook>, defaultMs: nat, args: string, answer: PreAnswers, n: nat) returns (i: nat)
    requires n <= |hooks|
    ensures n <= i <= |hooks|
    ensures forall j :: n <= j < i ==> Stops(hooks, defaultMs, args, answer, j).None?
    ensures FirstStop(hooks, defaultMs, args, answer, n) == if i < |hooks| then Stops(hooks, defaultMs, args, answer, i) else None
    ensures i < |hooks| ==> Stops(hooks, defaultMs, args, answer, i).Some?
    decreases |hooks| - n
  {
    if n == |hooks| || Stops(hooks, defaultMs, args, answer, n).Some? {
      i := n;
    } else {
      i := FirstStopIs(hooks, defaultMs, args, answer, n + 1);
    }
  }

  lemma {:induction false} AnyRewritesIs(hooks: seq<RegisteredHook>, args: string, answer: PreAnswers, n: nat)
    requires n <= |hooks|
    ensures AnyRewrites(hooks, args, answer, n) <==> exists i :: 0 <= i < n && Rewrites(hooks, args, answer, i)
    ensures !AnyRewrites(hooks, args, answer, n) ==> Shown(hooks, args, answer, n) == args
  {
    if n > 0 {
      AnyRewritesIs(hooks, args, answer, n - 1);
    }
  }

  /** Fails closed: the call goes on exactly when every hook, shown the arguments as rewritten before it,
      lets it; the reason of a denial is that of the first hook that does not; and the arguments that go on
      are those of the last rewrite. */
  lemma ToolPreFailsClosed(hooks: seq<RegisteredHook>, defaultMs: nat, args: string, answer: PreAnswers)
    ensures var v := ToolPre(hooks, defaultMs, args, answer);
            && (v.Denied? <==> exists i :: 0 <= i < |hooks| && Stops(hooks, defaultMs, args, answer, i).Some?)
            && (v.Denied? ==> exists i :: 0 <= i < |hooks| && Stops(hooks, defaultMs, args, answer, i) == Some(v.reason)
                                && forall j :: 0 <= j < i ==> Stops(hooks, defaultMs, args, answer, j).None?)
            && (!v.Denied? ==> (v.Rewritten? <==> exists i :: 0 <= i < |hooks| && Rewrites(hooks, args, answer, i)))
            && (v.Rewritten? ==> v.arguments == Shown(hooks, args, answer, |hooks|))
            && (v.Proceed? ==> Shown(hooks, args, answer, |hooks|) == args)
  {
    var i := FirstStopIs(hooks, defaultMs, args, answer, 0);
    AnyRewritesIs(hooks, args, answer, |hooks|);
  }

  /** A hook that is asked about a call lets it on, with the arguments it was shown or with its own. */
  predicate LetsOn(hook: RegisteredHook, answer: Run<ToolPreOutcome>, before: string, after: string) {
    if Rewrote(hook, answer) then after == answer.value.arguments
    else after == before && (hook.toolPre ==> answer.Skip? || (answer.Value? && answer.value.Continue?))
  }

  predicate Rewrote(hook: RegisteredHook, answer: Run<ToolPreOutcome>) {
    hook.toolPre && answer.Value? && answer.value.Rewrite?
  }

  /** It stops the call, for this reason: it is slow, it fails, or it denies. */
  predicate StopsFor(hook: RegisteredHook, defaultMs: nat, answer: Run<ToolPreOutcome>, reason: Reason) {
    hook.toolPre && match answer
                    case Timeout => reason == HookTimedOut(hook.name, if hook.timeoutMs.Some? then hook.timeoutMs.value else defaultMs)
                    case Failure(message) => reason == HookFailed(hook.name, message)
                    case Value(Deny(text)) => reason == HookDenied(hook.name, text)
                    case _ => false
  }

  lemma ShownOn(hooks: seq<RegisteredHook>, defaultMs: nat, args: string, answer: PreAnswers, i: nat)
    requires i < |hooks| && Stops(hooks, defaultMs, args, answer, i).None?
    ensures var before := Shown(hooks, args, answer, i);
            && LetsOn(hooks[i], answer(i, before), before, Shown(hooks, args, answer, i + 1))
            && (Rewrites(hooks, args, answer, i) <==> Rewrote(hooks[i], answer(i, before)))
  {}

  lemma StopsForIs(hooks: seq<RegisteredHook>, defaultMs: nat, args: string, answer: PreAnswers, i: nat, reason: Reason)
    requires i < |hooks| && Stops(hooks, defaultMs, args, answer, i) == Some(reason)
    ensures StopsFor(hooks[i], defaultMs, answer(i, Shown(hooks, args, answer, i)), reason)
  {}

  /** The arguments as they are shown to the first `n` hooks, and behind them. */
  predicate LetOn(hooks: seq<RegisteredHook>, args: string, answer: PreAnswers, shown: seq<string>) {
    && 1 <= |shown| <= |hooks| + 1 && shown[0] == args
    && forall i :: 0 <= i < |shown| - 1 ==> LetsOn(hooks[i], answer(i, shown[i]), shown[i], shown[i + 1])
  }

  lemma ShownUpTo(hooks: seq<RegisteredHook>, defaultMs: nat, args: string, answer: PreAnswers, n: nat) returns (shown: seq<string>)
    requires n <= |hooks| && forall j :: 0 <= j < n ==> Stops(hooks, defaultMs, args, answer, j).None?
    ensures |shown| == n + 1 && LetOn(hooks, args, answer, shown) && shown[n] == Shown(hooks, args, answer, n)
    ensures (exists i :: 0 <= i < n && Rewrites(hooks, args, answer, i)) <==> exists i :: 0 <= i < n && Rewrote(hooks[i], answer(i, shown[i]))
  {
    shown := seq(n + 1, (i: int) requires 0 <= i <= n => Shown(hooks, args, answer, i));
    forall i | 0 <= i < n
      ensures LetsOn(hooks[i], answer(i, shown[i]), shown[i], shown[i + 1])
      ensures Rewrites(hooks, args, answer, i) <==> Rewrote(hooks[i], answer(i, shown[i]))
    {
      ShownOn(hooks, defaultMs, args, answer, i);
    }
  }

  /** Asking the hooks one behind the other, each about the arguments that the one before lets on: the first that stops the
      call denies it, and behind all of them it goes on with the last arguments, which are the call's own unless one has
      rewritten them. */
  lemma ToolPreIs(hooks: seq<RegisteredHook>, defaultMs: nat, args: string, answer: PreAnswers) returns (shown: seq<string>)
    ensures LetOn(hooks, args, answer, shown)
    ensures var v, n := ToolPre(hooks, defaultMs, args, answer), |shown| - 1;
            if n < |hooks| then v.Denied? && StopsFor(hooks[n], defaultMs, answer(n, shown[n]), v.reason)
            else v == if exists i :: 0 <= i < |hooks| && Rewrote(hooks[i], answer(i, shown[i])) then Rewritten(shown[n]) else Proceed
  {
    var n := FirstStopIs(hooks, defaultMs, args, answer, 0);
    shown := ShownUpTo(hooks, defaultMs, args, answer, n);
    AnyRewritesIs(hooks, args, answer, |hooks|);
    if n < |hooks| {
      StopsForIs(hooks, defaultMs, args, answer, n, Stops(hooks, defaultMs, args, answer, n).value);
    }
  }

  /** A hook that is asked about a result replaces it, or leaves it as it is. */
  predicate Passes(hook: RegisteredHook, answer: Run<ToolPostOutcome>, before: ToolResult, after: ToolResult) {
    after == if hook.toolPost && answer.Value? && answer.value.Replace? then answer.value.result else before
  }

  /** Each hook is asked about the result as the ones before it leave it. */
  lemma {:induction false} ToolPostIs(hooks: seq<RegisteredHook>, result: ToolResult, answer: PostAnswers, n: nat) returns (shown: seq<ToolResult>)
    requires n <= |hooks|
    ensures |shown| == n + 1 && shown[0] == result && shown[n] == ToolPost(hooks, result, answer, n)
    ensures forall i :: 0 <= i < n ==> Passes(hooks[i], answer(i, shown[i]), shown[i], shown[i + 1])
  {
    if n == 0 {
      shown := [result];
    } else {
      var before := ToolPostIs(hooks, result, answer, n - 1);
      shown := before + [ToolPost(hooks, result, answer, n)];
    }
  }

  /** One denial, wherever it stands on the bus, is enough. */
  lemma OneDenialIsEnough(hooks: seq<RegisteredHook>, defaultMs: nat, args: string, answer: PreAnswers, i: nat)
    requires i < |hooks| && hooks[i].toolPre
    requires forall a :: answer(i, a).Timeout? || answer(i, a).Failure? || (answer(i, a).Value? && answer(i, a).value.Deny?)
    ensures ToolPre(hooks, defaultMs, args, answer).Denied?
  {
    var shown := Shown(hooks, args, answer, i);
    assert answer(i, shown).Timeout? || answer(i, shown).Failure? || (answer(i, shown).Value? && answer(i, shown).value.Deny?);
    assert Stops(hooks, defaultMs, args, answer, i).Some?;
    ToolPreFailsClosed(hooks, defaultMs, args, answer);
  }

  lemma DenialIsOfHook(hooks: seq<RegisteredHook>, defaultMs: nat, args: string, answer: PreAnswers)
    ensures var v := ToolPre(hooks, defaultMs, args, answer);
            v.Denied? ==> v.reason.HookTimedOut? || v.reason.HookFailed? || v.reason.HookDenied?
  {
    var i := FirstStopIs(hooks, defaultMs, args, answer, 0);
  }

  /** A post hook keeps the id of the call it is shown. */
  ghost predicate KeepsCallIds(hooks: seq<RegisteredHook>, answer: PostAnswers) {
    forall i, r :: 0 <= i < |hooks| && hooks[i].toolPost ==>
      match answer(i, r)
      case Value(Replace(s)) => s.callId == r.callId
      case _ => true
  }

  lemma {:induction false} ToolPostKeepsId(hooks: seq<RegisteredHook>, result: ToolResult, answer: PostAnswers, n: nat)
    requires n <= |hooks| && KeepsCallIds(hooks, answer)
    ensures ToolPost(hooks, result, answer, n).callId == result.callId
  {
    if n > 0 {
      ToolPostKeepsId(hooks, result, answer, n - 1);
    }
  }

  function Flat(parts: seq<seq<Block>>): seq<Block> {
    if parts == [] then [] else Flat(parts[..|parts| - 1]) + parts[|parts| - 1]
  }

  /** What asking one hook at the start of a turn gives: nothing when it has no such hook, fails or is slow. */
  predicate Gives(hook: RegisteredHook, answer: Run<seq<Block>>, blocks: seq<Block>) {
    blocks == if hook.turnStart && answer.Value? then answer.value else []
  }

  /** What a turn starts with is what the hooks give, one behind the other. */
  lemma {:induction false} TurnStartIs(hooks: seq<RegisteredHook>, answer: StartAnswers, n: nat) returns (parts: seq<seq<Block>>)
    requires n <= |hooks|
    ensures |parts| == n && TurnStart(hooks, answer, n) == Flat(parts)
    ensures forall i :: 0 <= i < n ==> Gives(hooks[i], answer(i), parts[i])
  {
    if n == 0 {
      parts := [];
    } else {
      var before := TurnStartIs(hooks, answer, n - 1);
      parts := before + [if hooks[n - 1].turnStart && answer(n - 1).Value? then answer(n - 1).value else []];
      assert parts[..n - 1] == before;
    }
  }
}
