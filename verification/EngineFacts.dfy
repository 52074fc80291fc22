/** What a turn leaves in the gate and in the store of the engine it runs on (packages/core/src/turn.ts,
    packages/core/src/dispatch.ts). */
module EngineFacts {
  import opened Text
  import opened Cost
  import opened Budget
  import opened Events
  import opened Turn
  import T = Truncate
  import P = Permissions
  import D = Dispatch
  import TF = TurnFacts

  // ----- traffic -----

  /** A gate that remembers `start` remembers `end` behind these requests. */
  ghost predicate Remembers(c: P.Config, start: set<string>, requests: seq<P.Request>, end: set<string>) {
    if requests == [] then end == start
    else
      var n := |requests| - 1;
      exists mid :: Remembers(c, start, requests[..n], mid) && end == P.Authorized(c, requests[n], mid).allowed
  }

  lemma {:induction false} RemembersIff(c: P.Config, start: set<string>, requests: seq<P.Request>, end: set<string>)
    ensures Remembers(c, start, requests, end) <==> end == P.Memory(c, start, requests, |requests|)
  {
    if requests != [] {
      var n := |requests| - 1;
      forall mid ensures Remembers(c, start, requests[..n], mid) <==> mid == P.Memory(c, start, requests, n) {
        RemembersIff(c, start, requests[..n], mid);
        assert requests[..n] + [requests[n]] == requests;
        D.MemoryPrefix(c, start, requests[..n], [requests[n]], n);
      }
    }
  }

  lemma RemembersOn(c: P.Config, start: set<string>, a: seq<P.Request>, mid: set<string>, b: seq<P.Request>, end: set<string>)
    requires Remembers(c, start, a, mid) && Remembers(c, mid, b, end)
    ensures Remembers(c, start, a + b, end)
  {
    RemembersIff(c, start, a, mid);
    RemembersIff(c, mid, b, end);
    D.MemoryAppend(c, start, a, b, |b|);
    RemembersIff(c, start, a + b, end);
  }

  /** The traffic leads the engine from one state to another. */
  ghost predicate Leads(setup: D.Setup, before: EngineState, t: D.Traffic, after: EngineState) {
    Remembers(setup.gate, before.allowed, t.requests, after.allowed) && after.store == D.StoreThen(setup, t, before.store)
  }

  const NONE := D.Traffic([], [])

  function Then(t: D.Traffic, u: D.Traffic): D.Traffic {
    D.Traffic(t.requests + u.requests, t.kept + u.kept)
  }

  lemma NothingLeads(setup: D.Setup, engine: EngineState)
    ensures Leads(setup, engine, NONE, engine)
  {}

  lemma LeadsOn(setup: D.Setup, a: EngineState, t: D.Traffic, b: EngineState, u: D.Traffic, c: EngineState)
    requires Leads(setup, a, t, b) && Leads(setup, b, u, c)
    ensures Leads(setup, a, Then(t, u), c)
  {
    RemembersOn(setup.gate, a.allowed, t.requests, b.allowed, u.requests, c.allowed);
    T.RegisteredAppend(a.store, setup.bounds, t.kept, u.kept);
  }

  /** All of it, in order. */
  function Whole(parts: seq<D.Traffic>): D.Traffic {
    if parts == [] then NONE else Then(Whole(parts[..|parts| - 1]), parts[|parts| - 1])
  }

  lemma WholeNext(parts: seq<D.Traffic>, more: D.Traffic)
    ensures Whole(parts + [more]) == Then(Whole(parts), more)
  {
    assert (parts + [more])[..|parts|] == parts;
  }

  lemma WholeLeadsOn(setup: D.Setup, start: EngineState, parts: seq<D.Traffic>, before: EngineState, more: D.Traffic, after: EngineState)
    requires Leads(setup, start, Whole(parts), before) && Leads(setup, before, more, after)
    ensures Leads(setup, start, Whole(parts + [more]), after)
  {
    LeadsOn(setup, start, Whole(parts), before, more, after);
    WholeNext(parts, more);
  }

  // ----- a tool phase -----

  /** What one call of a phase puts to the gate and the store: nothing when it is not run. */
  function TakenTraffic(p: Phase, setup: D.Setup, call: ToolCall, limits: ToolLimits, a: CallAnswer): D.Traffic {
    if p.abort || p.cancelled || a.aborted then NONE else D.CallTraffic(setup, call, limits, a.world, p.engine.allowed)
  }

  lemma TakenLeads(p: Phase, setup: D.Setup, call: ToolCall, limits: ToolLimits, a: CallAnswer)
    ensures Leads(setup, p.engine, TakenTraffic(p, setup, call, limits, a), CallTaken(p, setup, call, limits, a).engine)
  {
    if p.abort || p.cancelled || a.aborted {
      NothingLeads(setup, p.engine);
    } else {
      D.CallIsGateRun(setup, call, limits, a.world, p.engine.allowed, p.engine.store);
      D.CallIsStoreRun(setup, call, limits, a.world, p.engine.allowed, p.engine.store);
      RemembersIff(setup.gate, p.engine.allowed, D.CallRequests(setup, call, a.world, p.engine.allowed),
                   D.DispatchedCall(setup, call, limits, a.world, p.engine.allowed, p.engine.store).allowed);
    }
  }

  predicate PhaseAt(setup: D.Setup, calls: seq<ToolCall>, limits: ToolLimits, answers: nat -> CallAnswer, engine: EngineState, n: nat, p: Phase) {
    n <= |calls| && p == PhaseUpTo(setup, calls, limits, answers, engine, n)
  }

  /** What call `k` of the phase puts to them. */
  function CallPuts(setup: D.Setup, calls: seq<ToolCall>, limits: ToolLimits, answers: nat -> CallAnswer, engine: EngineState, k: nat): D.Traffic
    requires k < |calls|
  {
    TakenTraffic(PhaseUpTo(setup, calls, limits, answers, engine, k), setup, calls[k], limits, answers(k))
  }

  /** What the first `n` calls of a phase put to them, one after another. */
  ghost predicate PhasePuts(setup: D.Setup, calls: seq<ToolCall>, limits: ToolLimits, answers: nat -> CallAnswer, engine: EngineState, n: nat,
                            parts: seq<D.Traffic>)
    requires n <= |calls|
  {
    |parts| == n && forall k | 0 <= k < n :: parts[k] == CallPuts(setup, calls, limits, answers, engine, k)
  }

  lemma PhasePutsNext(setup: D.Setup, calls: seq<ToolCall>, limits: ToolLimits, answers: nat -> CallAnswer, engine: EngineState, n: nat, earlier: seq<D.Traffic>)
    requires 0 < n <= |calls| && PhasePuts(setup, calls, limits, answers, engine, n - 1, earlier)
    ensures PhasePuts(setup, calls, limits, answers, engine, n, earlier + [CallPuts(setup, calls, limits, answers, engine, n - 1)])
  {}

  lemma OneCallLeads(setup: D.Setup, calls: seq<ToolCall>, limits: ToolLimits, answers: nat -> CallAnswer, engine: EngineState, n: nat, before: Phase,
                     earlier: seq<D.Traffic>)
    returns (c: CallStep, more: D.Traffic)
    requires 0 < n <= |calls| && PhaseAt(setup, calls, limits, answers, engine, n - 1, before)
    requires PhasePuts(setup, calls, limits, answers, engine, n - 1, earlier)
    ensures PhaseAt(setup, calls, limits, answers, engine, n, Extended(before, c))
    ensures PhasePuts(setup, calls, limits, answers, engine, n, earlier + [more])
    ensures Leads(setup, before.engine, more, c.engine)
  {
    c := CallTaken(before, setup, calls[n - 1], limits, answers(n - 1));
    more := CallPuts(setup, calls, limits, answers, engine, n - 1);
    PhasePutsNext(setup, calls, limits, answers, engine, n, earlier);
    TakenLeads(before, setup, calls[n - 1], limits, answers(n - 1));
  }

  lemma OneCallDispatched(setup: D.Setup, calls: seq<ToolCall>, limits: ToolLimits, answers: nat -> CallAnswer, engine: EngineState, n: nat, before: Phase)
    returns (c: CallStep)
    requires 0 < n <= |calls| && PhaseAt(setup, calls, limits, answers, engine, n - 1, before)
    ensures PhaseAt(setup, calls, limits, answers, engine, n, Extended(before, c))
    ensures TF.IsDispatched(setup, c.record, answers(n - 1).world)
  {
    c := CallTaken(before, setup, calls[n - 1], limits, answers(n - 1));
    TF.TakenIsDispatched(before, setup, calls[n - 1], limits, answers(n - 1));
  }

  /** Each call of a phase that is not left out comes to what the dispatcher makes of it. */
  lemma {:induction false} PhaseIsDispatched(setup: D.Setup, calls: seq<ToolCall>, limits: ToolLimits, answers: nat -> CallAnswer, engine: EngineState, n: nat)
    returns (p: Phase)
    requires n <= |calls|
    ensures PhaseAt(setup, calls, limits, answers, engine, n, p) && |p.records| == n && TF.AllDispatched(setup, p.records, answers)
  {
    if n == 0 {
      p := Phase([], false, false, engine);
    } else {
      var before := PhaseIsDispatched(setup, calls, limits, answers, engine, n - 1);
      var c := OneCallDispatched(setup, calls, limits, answers, engine, n, before);
      TF.DispatchedGrows(setup, before, answers, n - 1, c);
      p := Extended(before, c);
    }
  }

  lemma {:induction false} PhaseLeads(setup: D.Setup, calls: seq<ToolCall>, limits: ToolLimits, answers: nat -> CallAnswer, engine: EngineState, n: nat)
    returns (p: Phase, parts: seq<D.Traffic>)
    requires n <= |calls|
    ensures PhaseAt(setup, calls, limits, answers, engine, n, p) && PhasePuts(setup, calls, limits, answers, engine, n, parts)
    ensures Leads(setup, engine, Whole(parts), p.engine)
  {
    if n == 0 {
      p, parts := Phase([], false, false, engine), [];
      NothingLeads(setup, engine);
    } else {
      var before, earlier := PhaseLeads(setup, calls, limits, answers, engine, n - 1);
      var c, more := OneCallLeads(setup, calls, limits, answers, engine, n, before, earlier);
      p, parts := Extended(before, c), earlier + [more];
      WholeLeadsOn(setup, engine, earlier, before.engine, more, c.engine);
    }
  }

  // ----- a turn -----

  /** The calls of a round are dispatched, as far as they are. */
  predicate Dispatches(request: TurnRequest, s: TurnState, round: Round) {
    s.stop.None? && Preflight(request, s, round).None? && !round.answer.throws && !round.abortedAfter
  }

  /** What a round puts to the gate and the store. */
  ghost predicate RoundPuts(request: TurnRequest, setup: D.Setup, s: TurnState, round: Round, t: D.Traffic) {
    if !Dispatches(request, s, round) then t == NONE
    else
      var calls := Collected(round.answer.chunks, |round.answer.chunks|).calls;
      var limits := Narrowed(request.limits, request.budget, request.startedAt, round.limitsNow);
      exists parts :: PhasePuts(setup, calls, limits, round.calls, s.engine, |calls|, parts) && t == Whole(parts)
  }

  function RoundOn(request: TurnRequest, setup: D.Setup, s: TurnState, round: Round): TurnState {
    if s.stop.Some? then s else RoundTaken(request, setup, s, round)
  }

  lemma RoundLeads(request: TurnRequest, setup: D.Setup, s: TurnState, round: Round) returns (t: D.Traffic)
    ensures RoundPuts(request, setup, s, round, t) && Leads(setup, s.engine, t, RoundOn(request, setup, s, round).engine)
  {
    if Dispatches(request, s, round) {
      t := CallsLead(request, setup, s, round);
    } else {
      t := NONE;
      NothingLeads(setup, s.engine);
    }
  }

  lemma CallsLead(request: TurnRequest, setup: D.Setup, s: TurnState, round: Round) returns (t: D.Traffic)
    requires Dispatches(request, s, round)
    ensures RoundPuts(request, setup, s, round, t) && Leads(setup, s.engine, t, RoundOn(request, setup, s, round).engine)
  {
    var calls := Collected(round.answer.chunks, |round.answer.chunks|).calls;
    var limits := Narrowed(request.limits, request.budget, request.startedAt, round.limitsNow);
    var p, parts := PhaseLeads(setup, calls, limits, round.calls, s.engine, |calls|);
    t := Whole(parts);
  }

  /** What the first `n` rounds of a turn put to them, one after another. */
  ghost predicate TurnPuts(request: TurnRequest, setup: D.Setup, engine: EngineState, rounds: seq<Round>, n: nat, parts: seq<D.Traffic>)
    requires n <= |rounds|
  {
    |parts| == n && forall k | 0 <= k < n :: RoundPuts(request, setup, StateAfter(request, setup, engine, rounds, k), rounds[k], parts[k])
  }

  lemma OneRoundLeads(request: TurnRequest, setup: D.Setup, engine: EngineState, rounds: seq<Round>, n: nat, before: TurnState)
    returns (after: TurnState, more: D.Traffic)
    requires 0 < n <= |rounds| && IsAfter(request, setup, engine, rounds, n - 1, before)
    ensures IsAfter(request, setup, engine, rounds, n, after)
    ensures RoundPuts(request, setup, StateAfter(request, setup, engine, rounds, n - 1), rounds[n - 1], more)
    ensures Leads(setup, before.engine, more, after.engine)
  {
    after := RoundOn(request, setup, before, rounds[n - 1]);
    more := RoundLeads(request, setup, before, rounds[n - 1]);
  }

  lemma {:induction false} RoundsLead(request: TurnRequest, setup: D.Setup, engine: EngineState, rounds: seq<Round>, n: nat)
    returns (s: TurnState, parts: seq<D.Traffic>)
    requires n <= |rounds|
    ensures IsAfter(request, setup, engine, rounds, n, s) && TurnPuts(request, setup, engine, rounds, n, parts)
    ensures Leads(setup, engine, Whole(parts), s.engine)
  {
    if n == 0 {
      s, parts := TurnState([], ZERO_USAGE, 0, None, engine), [];
      NothingLeads(setup, engine);
    } else {
      var before, earlier := RoundsLead(request, setup, engine, rounds, n - 1);
      var after, more := OneRoundLeads(request, setup, engine, rounds, n, before);
      s, parts := after, earlier + [more];
      WholeLeadsOn(setup, engine, earlier, before.engine, more, after.engine);
    }
  }

  /** What all calls of a turn, and of its subagents, put to the gate and to the store, in order. */
  ghost predicate Puts(request: TurnRequest, setup: D.Setup, engine: EngineState, rounds: seq<Round>, t: D.Traffic) {
    exists parts :: TurnPuts(request, setup, engine, rounds, |rounds|, parts) && t == Whole(parts)
  }

  /** The memory and the store that a turn leaves are those of a run of the gate and of a run of the store over what
      its calls put to them. */
  lemma TurnLeads(request: TurnRequest, setup: D.Setup, engine: EngineState, rounds: seq<Round>) returns (t: D.Traffic)
    ensures Puts(request, setup, engine, rounds, t) && Leads(setup, engine, t, Ended(request, setup, engine, rounds).engine)
  {
    var s, parts := RoundsLead(request, setup, engine, rounds, |rounds|);
    t := Whole(parts);
  }

  /** A turn leaves in the memory what was there and what the user, asked about a call of the turn or of a subagent,
      allowed for the session, and nothing else. */
  lemma TurnMemoryIs(request: TurnRequest, setup: D.Setup, engine: EngineState, rounds: seq<Round>, signature: string) returns (t: D.Traffic)
    ensures Puts(request, setup, engine, rounds, t)
    ensures signature in Ended(request, setup, engine, rounds).engine.allowed
       <==> signature in engine.allowed || P.AllowedBefore(setup.gate, engine.allowed, t.requests, |t.requests|, signature)
  {
    t := TurnLeads(request, setup, engine, rounds);
    MemoryThrough(setup, engine, t, Ended(request, setup, engine, rounds).engine, signature);
  }

  lemma MemoryThrough(setup: D.Setup, before: EngineState, t: D.Traffic, after: EngineState, signature: string)
    requires Leads(setup, before, t, after)
    ensures signature in after.allowed
       <==> signature in before.allowed || P.AllowedBefore(setup.gate, before.allowed, t.requests, |t.requests|, signature)
  {
    RemembersIff(setup.gate, before.allowed, t.requests, after.allowed);
    P.MemoryIs(setup.gate, before.allowed, t.requests, |t.requests|, signature);
  }

  /** If the store was that of a run and no token is issued while it is held, a turn leaves in it the longest suffix that
      fits of what had been accepted before and what the calls of the turn registered. */
  lemma TurnStoreIs(request: TurnRequest, setup: D.Setup, engine: EngineState, rounds: seq<Round>, ops: seq<T.Op>) returns (t: D.Traffic)
    requires engine.store == T.Run(ops, setup.bounds)
    ensures Puts(request, setup, engine, rounds, t)
    ensures var all := ops + T.Registrations(t.kept);
            var held := T.LongestFitting(T.Accepted(all, setup.bounds), setup.bounds);
            T.FreshTokens(all, setup.bounds) ==> Ended(request, setup, engine, rounds).engine.store == T.Store(held, T.Total(held))
  {
    t := TurnLeads(request, setup, engine, rounds);
    StoreThrough(setup, engine, t, Ended(request, setup, engine, rounds).engine, ops);
  }

  lemma StoreThrough(setup: D.Setup, before: EngineState, t: D.Traffic, after: EngineState, ops: seq<T.Op>)
    requires before.store == T.Run(ops, setup.bounds) && Leads(setup, before, t, after)
    ensures var all := ops + T.Registrations(t.kept);
            var held := T.LongestFitting(T.Accepted(all, setup.bounds), setup.bounds);
            T.FreshTokens(all, setup.bounds) ==> after.store == T.Store(held, T.Total(held))
  {
    var all := ops + T.Registrations(t.kept);
    T.RunAppend(T.Store([], 0), ops, T.Registrations(t.kept), setup.bounds);
    if T.FreshTokens(all, setup.bounds) {
      T.HoldsLongestSuffix(all, setup.bounds);
    }
  }
}
