/** Turn budgets (packages/core/src/budget.ts). What the clock reads is a parameter of each check. */
module Budget {
  import opened Text
  import opened Cost

  datatype TurnBudget = TurnBudget(maxSteps: Option<nat>, maxTokens: Option<nat>, maxWallClockMs: Option<int>, maxSpendUsd: Option<real>)

  datatype Kind = Steps | Tokens | WallClock | Spend

  datatype StopReason = EndTurn | MaxSteps | BudgetExhausted | Cancelled | Refused | Error

  datatype Exhausted = Exhausted(kind: Kind, stopReason: StopReason)

  /** What a tracker knows: the ceilings, the prices, when the turn began, and what it has recorded. */
  datatype Tracked = Tracked(budget: TurnBudget, prices: Option<PriceSheet>, startedAt: int, steps: nat, usage: Usage)

  function SpendUsd(s: Tracked): real {
    match s.prices
    case None => 0.0
    case Some(prices) => TotalUsd(s.usage, prices)
  }

  /** The ceiling of this kind is set and reached. */
  predicate Reached(s: Tracked, now: int, kind: Kind) {
    match kind
    case Steps => s.budget.maxSteps.Some? && s.steps >= s.budget.maxSteps.value
    case Tokens => s.budget.maxTokens.Some? && TotalTokens(s.usage) >= s.budget.maxTokens.value
    case WallClock => s.budget.maxWallClockMs.Some? && now - s.startedAt >= s.budget.maxWallClockMs.value
    case Spend => s.budget.maxSpendUsd.Some? && SpendUsd(s) >= s.budget.maxSpendUsd.value
  }

  function Rank(kind: Kind): nat {
    match kind
    case Steps => 0
    case Tokens => 1
    case WallClock => 2
    case Spend => 3
  }

  /** The first ceiling reached, in the fixed order of the kinds; only running out of steps stops a turn
      with a reason of its own. */
  predicate IsFirstReached(s: Tracked, now: int, e: Option<Exhausted>) {
    match e
    case None => forall kind :: !Reached(s, now, kind)
    case Some(x) =>
      && Reached(s, now, x.kind)
      && (forall kind :: Rank(kind) < Rank(x.kind) ==> !Reached(s, now, kind))
      && x.stopReason == if x.kind.Steps? then MaxSteps else BudgetExhausted
  }

  /** No two answers meet that description. */
  lemma FirstReachedUnique(s: Tracked, now: int, e: Option<Exhausted>, f: Option<Exhausted>)
    requires IsFirstReached(s, now, e) && IsFirstReached(s, now, f)
    ensures e == f
  {
    if e.Some? && f.Some? {
      assert Rank(e.value.kind) == Rank(f.value.kind);
    }
  }

  function FirstReached(s: Tracked, now: int): (e: Option<Exhausted>)
    ensures IsFirstReached(s, now, e)
  {
    if Reached(s, now, Steps) then Some(Exhausted(Steps, MaxSteps))
    else if Reached(s, now, Tokens) then Some(Exhausted(Tokens, BudgetExhausted))
    else if Reached(s, now, WallClock) then Some(Exhausted(WallClock, BudgetExhausted))
    else if Reached(s, now, Spend) then Some(Exhausted(Spend, BudgetExhausted))
    else
      assert forall kind :: !Reached(s, now, kind) by { EveryKind(s, now); }
      None
  }

  lemma EveryKind(s: Tracked, now: int)
    ensures (forall kind :: !Reached(s, now, kind))
       <==> !Reached(s, now, Steps) && !Reached(s, now, Tokens) && !Reached(s, now, WallClock) && !Reached(s, now, Spend)
  {
    forall kind | !Reached(s, now, Steps) && !Reached(s, now, Tokens) && !Reached(s, now, WallClock) && !Reached(s, now, Spend)
      ensures !Reached(s, now, kind)
    {
      match kind {
        case Steps =>
        case Tokens =>
        case WallClock =>
        case Spend =>
      }
    }
  }

  class BudgetTracker {
    const budget: TurnBudget
    const prices: Option<PriceSheet>
    const startedAt: int
    var steps: nat
    var usage: Usage

    function State(): Tracked
      reads this
    {
      Tracked(budget, prices, startedAt, steps, usage)
    }

    constructor (budget: TurnBudget, prices: Option<PriceSheet>, now: int)
      ensures State() == Tracked(budget, prices, now, 0, ZERO_USAGE)
    {
      this.budget, this.prices, this.startedAt := budget, prices, now;
      steps, usage := 0, ZERO_USAGE;
    }

    method RecordStep()
      modifies this`steps
      ensures steps == old(steps) + 1
    {
      steps := steps + 1;
    }

    method RecordUsage(u: Usage)
      modifies this`usage
      ensures usage == u
    {
      usage := u;
    }

    method Check(now: int) returns (e: Option<Exhausted>)
      ensures IsFirstReached(State(), now, e) && e == FirstReached(State(), now)
    {
      if budget.maxSteps.Some? && steps >= budget.maxSteps.value {
        return Some(Exhausted(Steps, MaxSteps));
      }
      var tokens := TotalTokens(usage);
      if budget.maxTokens.Some? && tokens >= budget.maxTokens.value {
        return Some(Exhausted(Tokens, BudgetExhausted));
      }
      var elapsed := now - startedAt;
      if budget.maxWallClockMs.Some? && elapsed >= budget.maxWallClockMs.value {
        return Some(Exhausted(WallClock, BudgetExhausted));
      }
      if budget.maxSpendUsd.Some? {
        var spend := if prices.None? then 0.0 else TotalUsd(usage, prices.value);
        if spend >= budget.maxSpendUsd.value {
          return Some(Exhausted(Spend, BudgetExhausted));
        }
      }
      e := None;
    }

    /** What is left on the wall clock is what the ceiling of this kind still allows, and never negative. */
    method RemainingWallClockMs(now: int) returns (r: Option<int>)
      ensures r.Some? <==> budget.maxWallClockMs.Some?
      ensures r.Some? ==> r.value >= 0 && (r.value == 0 <==> Reached(State(), now, WallClock))
      ensures r.Some? && r.value > 0 ==> now + r.value == startedAt + budget.maxWallClockMs.value
    {
      if budget.maxWallClockMs.None? {
        return None;
      }
      var left := budget.maxWallClockMs.value - (now - startedAt);
      r := Some(if left < 0 then 0 else left);
    }
  }

  datatype ToolLimits = ToolLimits(maxResultBytes: nat, timeoutMs: int)

  /** The timeout of a tool call, lowered to what the turn has left. */
  function Narrowed(limits: ToolLimits, budget: TurnBudget, startedAt: int, now: int): ToolLimits {
    match budget.maxWallClockMs
    case None => limits
    case Some(max) =>
      var left := if max - (now - startedAt) < 0 then 0 else max - (now - startedAt);
      limits.(timeoutMs := if left < limits.timeoutMs then left else limits.timeoutMs)
  }

  method ToolLimitsFor(limits: ToolLimits, tracker: BudgetTracker, now: int) returns (r: ToolLimits)
    ensures r == Narrowed(limits, tracker.budget, tracker.startedAt, now)
  {
    var remaining := tracker.RemainingWallClockMs(now);
    if remaining.None? {
      return limits;
    }
    r := limits.(timeoutMs := if remaining.value < limits.timeoutMs then remaining.value else limits.timeoutMs);
  }

  /** Something that takes `t` ms from `at` on ends before the turn has run out of time. */
  predicate EndsInTime(budget: TurnBudget, startedAt: int, at: int, t: int) {
    budget.maxWallClockMs.None? || at + t <= startedAt + budget.maxWallClockMs.value
  }

  /** For a call that starts when the limits are computed, the narrowed timeout is the tighter of the two ceilings. All
      calls of a step have the same limits: one that starts at a later time `at` is sure to end before the turn runs out
      of time exactly when its whole timeout fits from there. */
  lemma NarrowedIsTightest(limits: ToolLimits, budget: TurnBudget, startedAt: int, now: int, at: int)
    requires limits.timeoutMs >= 0
    ensures var r := Narrowed(limits, budget, startedAt, now);
            && r.maxResultBytes == limits.maxResultBytes && 0 <= r.timeoutMs <= limits.timeoutMs
            && (forall t: nat :: t <= r.timeoutMs <==> t <= limits.timeoutMs && (t == 0 || EndsInTime(budget, startedAt, now, t)))
            && ((forall t: nat | t <= r.timeoutMs :: EndsInTime(budget, startedAt, at, t)) <==> EndsInTime(budget, startedAt, at, r.timeoutMs))
  {}

  function SumOf(durations: seq<nat>): nat {
    if durations == [] then 0 else SumOf(durations[..|durations| - 1]) + durations[|durations| - 1]
  }

  predicate AllWithin(durations: seq<nat>, timeout: int) {
    forall d <- durations :: d <= timeout
  }

  /** Calls of these durations, one behind the other from `now` on, all end before the turn has run out of time. */
  predicate AllEndInTime(budget: TurnBudget, startedAt: int, now: int, durations: seq<nat>) {
    forall k :: 1 <= k <= |durations| ==> EndsInTime(budget, startedAt, now, SumOf(durations[..k]))
  }

  lemma {:induction false} SumBounded(durations: seq<nat>, timeout: nat)
    requires AllWithin(durations, timeout)
    ensures SumOf(durations) <= |durations| * timeout
  {
    if durations != [] {
      var n := |durations| - 1;
      assert forall d <- durations[..n] :: d in durations;
      SumBounded(durations[..n], timeout);
      assert durations[n] in durations;
      assert |durations| * timeout == n * timeout + timeout;
    }
  }

  /** As many calls that all take this long. */
  function Longest(m: nat, timeout: nat): (durations: seq<nat>)
    ensures |durations| == m && AllWithin(durations, timeout)
  {
    seq(m, _ => timeout)
  }

  lemma {:induction false} SumOfLongest(m: nat, timeout: nat)
    ensures SumOf(Longest(m, timeout)) == m * timeout
  {
    if m > 0 {
      assert Longest(m, timeout)[..m - 1] == Longest(m - 1, timeout);
      SumOfLongest(m - 1, timeout);
      assert m * timeout == (m - 1) * timeout + timeout;
    }
  }

  /** The calls of a step run one behind the other, each within the timeout that was computed before the first. They are
      sure to end before the turn runs out of time if and only if all of them together have that time. */
  lemma StepEndsInTimeIff(limits: ToolLimits, budget: TurnBudget, startedAt: int, now: int, m: nat)
    requires limits.timeoutMs >= 0
    ensures var timeout := Narrowed(limits, budget, startedAt, now).timeoutMs;
            (forall durations | |durations| == m && AllWithin(durations, timeout) :: AllEndInTime(budget, startedAt, now, durations))
            <==> m == 0 || EndsInTime(budget, startedAt, now, m * timeout)
  {
    var timeout: nat := Narrowed(limits, budget, startedAt, now).timeoutMs;
    if m > 0 && !EndsInTime(budget, startedAt, now, m * timeout) {
      var longest := Longest(m, timeout);
      SumOfLongest(m, timeout);
      assert longest[..m] == longest;
      assert !AllEndInTime(budget, startedAt, now, longest);
    }
    forall durations | |durations| == m && AllWithin(durations, timeout) && (m == 0 || EndsInTime(budget, startedAt, now, m * timeout))
      ensures AllEndInTime(budget, startedAt, now, durations)
    {
      forall k | 1 <= k <= |durations| ensures EndsInTime(budget, startedAt, now, SumOf(durations[..k])) {
        FirstBounded(durations, timeout, k);
      }
    }
  }

  lemma FirstBounded(durations: seq<nat>, timeout: nat, k: nat)
    requires k <= |durations| && AllWithin(durations, timeout)
    ensures SumOf(durations[..k]) <= |durations| * timeout
  {
    assert forall d <- durations[..k] :: d in durations;
    SumBounded(durations[..k], timeout);
    assert |durations| * timeout == k * timeout + (|durations| - k) * timeout;
  }

  /** Two calls of 10 ms, each within its timeout, end at 20 ms in a turn that has 10. */
  lemma SecondCallIsLate(limits: ToolLimits, budget: TurnBudget)
    requires limits.timeoutMs == 10 && budget.maxWallClockMs == Some(10)
    ensures Narrowed(limits, budget, 0, 0).timeoutMs == 10
    ensures AllWithin([10, 10], 10) && SumOf([10, 10]) == 20 && !AllEndInTime(budget, 0, 0, [10, 10])
  {
    var durations: seq<nat> := [10, 10];
    assert durations[..2] == durations && durations[..1] == [10] && durations[..1][..0] == [];
  }
}
