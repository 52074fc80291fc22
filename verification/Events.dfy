/** The event stream of turns (packages/core/src/events.ts). */
module Events {
  import opened Text
  import opened Cost
  import opened Budget
  import opened Truncate

  datatype ToolCall = ToolCall(callId: string, name: string, arguments: string)

  datatype Cut = Cut(originalBytes: nat, returnedBytes: nat, continuation: Option<string>)

  datatype ToolResult = ToolResult(callId: string, ok: bool, content: seq<Block>, truncated: bool, truncation: Option<Cut>, error: Option<string>)

  datatype Source = Gate | Hook

  /** Why a call did not run. */
  datatype Reason =
    | HookTimedOut(hook: string, ms: nat)
    | HookFailed(hook: string, message: string)
    | HookDenied(hook: string, reason: string)
    | RuleForbids(prefix: string)
    | NeverAsks
    | NoChannel
    | UserDenied(note: Option<string>)
    | UserAborted(note: Option<string>)

  /** What a tool reports besides its result; the payload of an edit is not looked at. */
  datatype Emission = EditProposed(edit: string) | EditApplied(edit: string) | EditRefused(edit: string) | TodoUpdated(items: seq<string>)

  /** An event without the identity its emitter stamps on it. */
  datatype Payload =
    | TurnStarted(model: string, cacheEpoch: nat, warnings: seq<string>)
    | TextDelta(text: string)
    | ToolStarted(call: ToolCall, step: nat)
    | ToolFinished(result: ToolResult)
    | ToolDenied(callId: string, name: string, source: Source, reason: Reason)
    | Emitted(emission: Emission)
    | UsageUpdated(model: string, usage: Usage, steps: nat)
    | TurnCompleted(stopReason: StopReason, model: string, usage: Usage, steps: nat)

  datatype Event = Event(turnId: string, seqNo: nat, payload: Payload)

  /** Number of events of a turn. */
  function CountTurn(events: seq<Event>, turnId: string): nat {
    if events == [] then 0
    else CountTurn(events[..|events| - 1], turnId) + (if events[|events| - 1].turnId == turnId then 1 else 0)
  }

  /** Every event carries the number of events of its turn before it. */
  predicate Contiguous(events: seq<Event>) {
    events == [] ||
    var before, last := events[..|events| - 1], events[|events| - 1];
    Contiguous(before) && last.seqNo == CountTurn(before, last.turnId)
  }

  class EventLog {
    var events: seq<Event>

    constructor ()
      ensures events == []
    {
      events := [];
    }

    method Sink(event: Event)
      modifies this
      ensures events == old(events) + [event]
    {
      events := events + [event];
    }

    method SequenceIsContiguous() returns (r: bool)
      ensures r == Contiguous(events)
    {
      var nextByTurn: map<string, nat> := map[];
      for i := 0 to |events|
        invariant Contiguous(events[..i])
        invariant forall id :: (if id in nextByTurn then nextByTurn[id] else 0) == CountTurn(events[..i], id)
      {
        var event := events[i];
        assert events[..i + 1][..i] == events[..i] && events[..i + 1][i] == event;
        var expected := if event.turnId in nextByTurn then nextByTurn[event.turnId] else 0;
        if event.seqNo != expected {
          ContiguousPrefix(events, i + 1);
          return false;
        }
        nextByTurn := nextByTurn[event.turnId := expected + 1];
      }
      assert events[..|events|] == events;
      r := true;
    }
  }

  lemma {:induction false} ContiguousPrefix(events: seq<Event>, n: nat)
    requires n <= |events|
    ensures Contiguous(events) ==> Contiguous(events[..n])
  {
    if n < |events| {
      ContiguousPrefix(events[..|events| - 1], n);
      assert events[..|events| - 1][..n] == events[..n];
    } else {
      assert events[..n] == events;
    }
  }

  /** The payloads as events of one turn, numbered from `start`. */
  function Stamped(turnId: string, start: nat, payloads: seq<Payload>): (events: seq<Event>)
    ensures |events| == |payloads|
  {
    if payloads == [] then []
    else Stamped(turnId, start, payloads[..|payloads| - 1]) + [Event(turnId, start + |payloads| - 1, payloads[|payloads| - 1])]
  }

  class TurnEmitter {
    const log: EventLog
    const turnId: string
    var seqNo: nat
    ghost const base: seq<Event>
    ghost var emitted: seq<Payload>

    /** The log is what it was when this emitter was made, and then what this emitter has emitted. */
    ghost predicate Valid()
      reads this, log
    {
      seqNo == |emitted| && log.events == base + Stamped(turnId, 0, emitted)
    }

    constructor (log: EventLog, turnId: string)
      ensures this.log == log && this.turnId == turnId && Valid()
      ensures emitted == [] && base == log.events
    {
      this.log, this.turnId, seqNo := log, turnId, 0;
      base, emitted := log.events, [];
    }

    method Emit(payload: Payload)
      requires Valid()
      modifies this, log
      ensures Valid() && emitted == old(emitted) + [payload]
    {
      var event := Event(turnId, seqNo, payload);
      seqNo := seqNo + 1;
      log.Sink(event);
      StampedAppend(turnId, 0, emitted, [payload]);
      StampedOne(turnId, |emitted|, payload);
      assert base + Stamped(turnId, 0, emitted) + [event] == base + (Stamped(turnId, 0, emitted) + [event]);
      emitted := emitted + [payload];
    }

    /** An empty delta takes no number. */
    method Delta(text: string)
      requires Valid()
      modifies this, log
      ensures Valid() && emitted == old(emitted) + DeltaOf(text)
    {
      if |text| == 0 {
        return;
      }
      Emit(TextDelta(text));
    }
  }

  function DeltaOf(text: string): seq<Payload> {
    if text == "" then [] else [TextDelta(text)]
  }

  lemma StampedOne(turnId: string, start: nat, payload: Payload)
    ensures Stamped(turnId, start, [payload]) == [Event(turnId, start, payload)]
  {
    assert [payload][..0] == [];
  }

  lemma {:induction false} StampedAppend(turnId: string, start: nat, a: seq<Payload>, b: seq<Payload>)
    ensures Stamped(turnId, start, a + b) == Stamped(turnId, start, a) + Stamped(turnId, start + |a|, b)
  {
    if b == [] {
      assert a + b == a;
    } else {
      var n := |b| - 1;
      StampedAppend(turnId, start, a, b[..n]);
      assert (a + b)[..|a| + n] == a + b[..n];
    }
  }

  // ----- interleavings -----

  /** A schedule of emissions: which emitter emits what next. */
  datatype Step = Step(emitter: nat, payload: Payload)

  /** How often an emitter has emitted. */
  function Emissions(schedule: seq<Step>, emitter: nat): nat {
    if schedule == [] then 0
    else Emissions(schedule[..|schedule| - 1], emitter) + (if schedule[|schedule| - 1].emitter == emitter then 1 else 0)
  }

  predicate InRange(ids: seq<string>, schedule: seq<Step>) {
    forall step <- schedule :: step.emitter < |ids|
  }

  /** What fresh emitters with these turn ids leave in one empty log when they emit in this order: each
      event carries the counter of its emitter. */
  function Logged(ids: seq<string>, schedule: seq<Step>): seq<Event>
    requires InRange(ids, schedule)
  {
    if schedule == [] then []
    else
      var before, last := schedule[..|schedule| - 1], schedule[|schedule| - 1];
      Logged(ids, before) + [Event(ids[last.emitter], Emissions(before, last.emitter), last.payload)]
  }

  lemma {:induction false} CountIsEmissions(ids: seq<string>, schedule: seq<Step>, emitter: nat)
    requires Distinct(ids) && InRange(ids, schedule) && emitter < |ids|
    ensures CountTurn(Logged(ids, schedule), ids[emitter]) == Emissions(schedule, emitter)
  {
    if schedule != [] {
      var before, last := schedule[..|schedule| - 1], schedule[|schedule| - 1];
      CountIsEmissions(ids, before, emitter);
      var all := Logged(ids, schedule);
      assert all[..|all| - 1] == Logged(ids, before);
      assert ids[last.emitter] == ids[emitter] <==> last.emitter == emitter;
    }
  }

  /** Emitters of distinct turns can share a log, in any order. */
  lemma {:induction false} InterleavingIsContiguous(ids: seq<string>, schedule: seq<Step>)
    requires Distinct(ids) && InRange(ids, schedule)
    ensures Contiguous(Logged(ids, schedule))
  {
    if schedule != [] {
      var before, last := schedule[..|schedule| - 1], schedule[|schedule| - 1];
      InterleavingIsContiguous(ids, before);
      CountIsEmissions(ids, before, last.emitter);
      var all := Logged(ids, schedule);
      assert all[..|all| - 1] == Logged(ids, before);
    }
  }

  /** Every order of emissions is contiguous exactly when no two emitters share a turn id. */
  lemma ContiguousIffDistinct(ids: seq<string>)
    ensures Distinct(ids) <==> forall schedule | InRange(ids, schedule) :: Contiguous(Logged(ids, schedule))
  {
    if Distinct(ids) {
      forall schedule | InRange(ids, schedule) ensures Contiguous(Logged(ids, schedule)) {
        InterleavingIsContiguous(ids, schedule);
      }
    } else {
      var i, j :| 0 <= i < j < |ids| && ids[i] == ids[j];
      SharedIdBreaks(ids, i, j);
    }
  }

  lemma LoggedStep(ids: seq<string>, schedule: seq<Step>, step: Step)
    requires InRange(ids, schedule) && step.emitter < |ids|
    ensures InRange(ids, schedule + [step])
    ensures Logged(ids, schedule + [step]) == Logged(ids, schedule) + [Event(ids[step.emitter], Emissions(schedule, step.emitter), step.payload)]
  {
    assert (schedule + [step])[..|schedule|] == schedule;
  }

  lemma SharedIdBreaks(ids: seq<string>, i: nat, j: nat)
    requires i < j < |ids| && ids[i] == ids[j]
    ensures exists schedule :: InRange(ids, schedule) && !Contiguous(Logged(ids, schedule))
  {
    var one := TwoLogged(ids, i, j, Step(i, TextDelta("")), Step(j, TextDelta("")));
    TwoFirsts(one);
  }

  /** Two emitters that share an id both begin to count. */
  lemma TwoLogged(ids: seq<string>, i: nat, j: nat, first: Step, second: Step) returns (one: Event)
    requires i < j < |ids| && ids[i] == ids[j] && first == Step(i, second.payload) && second.emitter == j
    ensures InRange(ids, [] + [first] + [second]) && Logged(ids, [] + [first] + [second]) == [one] + [one] && one.seqNo == 0
  {
    one := Event(ids[i], 0, first.payload);
    LoggedStep(ids, [], first);
    LoggedStep(ids, [] + [first], second);
    OtherEmitted(first, j);
    assert [] + [one] == [one];
  }

  lemma OtherEmitted(step: Step, other: nat)
    requires step.emitter != other
    ensures Emissions([] + [step], other) == 0
  {
    assert ([] + [step])[..0] == [];
  }

  lemma TwoFirsts(event: Event)
    requires event.seqNo == 0
    ensures !Contiguous([event] + [event])
  {
    assert ([event] + [event])[..1] == [event] && [event][..0] == [];
  }

  /** The stamped payloads of one turn behind a log that does not mention it. */
  lemma {:induction false} StampedIsContiguous(log: seq<Event>, turnId: string, payloads: seq<Payload>)
    requires Contiguous(log) && CountTurn(log, turnId) == 0
    ensures Contiguous(log + Stamped(turnId, 0, payloads))
    ensures CountTurn(log + Stamped(turnId, 0, payloads), turnId) == |payloads|
  {
    var all := log + Stamped(turnId, 0, payloads);
    if payloads == [] {
      assert all == log;
    } else {
      var before := payloads[..|payloads| - 1];
      StampedIsContiguous(log, turnId, before);
      assert all[..|all| - 1] == log + Stamped(turnId, 0, before);
    }
  }
}
