/** Usage and cost accounting (packages/core/src/cost.ts), with exact rationals for rates and prices. */
module Cost {
  import opened Text

  datatype Usage = Usage(inputTokens: nat, cachedInputTokens: nat, outputTokens: nat, reasoningTokens: Option<nat>, cacheHitRate: real)

  /** Prices of a million tokens. */
  datatype PriceSheet = PriceSheet(input: real, cachedInput: real, output: real)

  const ZERO_USAGE := Usage(0, 0, 0, None, 0.0)
  const PER_MILLION := 1000000.0

  function Reasoning(usage: Usage): nat {
    match usage.reasoningTokens
    case Some(n) => n
    case None => 0
  }

  /** The share of a prompt that came from the cache. */
  function HitRate(input: nat, cached: nat): (rate: real)
    ensures 0.0 <= rate <= 1.0
  {
    if input + cached == 0 then 0.0 else cached as real / (input + cached) as real
  }

  function AddUsage(a: Usage, b: Usage): Usage {
    var inputTokens := a.inputTokens + b.inputTokens;
    var cachedInputTokens := a.cachedInputTokens + b.cachedInputTokens;
    var reasoning := Reasoning(a) + Reasoning(b);
    Usage(inputTokens, cachedInputTokens, a.outputTokens + b.outputTokens,
          if reasoning > 0 then Some(reasoning) else None, HitRate(inputTokens, cachedInputTokens))
  }

  function TotalTokens(usage: Usage): nat {
    usage.inputTokens + usage.cachedInputTokens + usage.outputTokens
  }

  function Priced(tokens: nat, price: real): real {
    (tokens as real / PER_MILLION) * price
  }

  function TotalUsd(usage: Usage, prices: PriceSheet): real {
    Priced(usage.inputTokens, prices.input) + Priced(usage.cachedInputTokens, prices.cachedInput) + Priced(usage.outputTokens, prices.output)
  }

  /** What a turn adds up, record by record. */
  function Accumulated(records: seq<Usage>): Usage {
    if records == [] then ZERO_USAGE else AddUsage(Accumulated(records[..|records| - 1]), records[|records| - 1])
  }

  datatype Counter = Input | Cached | Output | Thought

  function Count(usage: Usage, counter: Counter): nat {
    match counter
    case Input => usage.inputTokens
    case Cached => usage.cachedInputTokens
    case Output => usage.outputTokens
    case Thought => Reasoning(usage)
  }

  function Sum(records: seq<Usage>, counter: Counter): nat {
    if records == [] then 0 else Count(records[0], counter) + Sum(records[1..], counter)
  }

  lemma {:induction false} SumAppend(a: seq<Usage>, b: seq<Usage>, counter: Counter)
    ensures Sum(a + b, counter) == Sum(a, counter) + Sum(b, counter)
  {
    if a == [] {
      assert a + b == b;
    } else {
      assert (a + b)[1..] == a[1..] + b;
      SumAppend(a[1..], b, counter);
    }
  }

  /** The counters are the sums of the counters, and the hit rate is that of the summed split, not an
      average of rates. */
  lemma {:induction false} AccumulatedIs(records: seq<Usage>)
    ensures var total := Accumulated(records);
            && (forall counter :: Count(total, counter) == Sum(records, counter))
            && total.cacheHitRate == HitRate(Sum(records, Input), Sum(records, Cached))
            && (total.reasoningTokens.Some? <==> Sum(records, Thought) > 0)
  {
    if records != [] {
      var before, last := records[..|records| - 1], records[|records| - 1];
      AccumulatedIs(before);
      assert records == before + [last];
      forall counter ensures Sum(records, counter) == Sum(before, counter) + Count(last, counter) {
        SumAppend(before, [last], counter);
        assert Sum([last], counter) == Count(last, counter) + Sum([last][1..], counter);
      }
    }
  }

  lemma PricedAdds(m: nat, n: nat, price: real)
    ensures Priced(m + n, price) == Priced(m, price) + Priced(n, price)
  {
    var x, y := m as real / PER_MILLION, n as real / PER_MILLION;
    assert (m + n) as real / PER_MILLION == x + y;
    assert (x + y) * price == x * price + y * price;
  }

  /** The hit rate is the cached part of a prompt of so many tokens. */
  lemma HitRateIs(input: nat, cached: nat)
    ensures HitRate(input, cached) * (input + cached) as real == cached as real
    ensures input + cached == 0 ==> HitRate(input, cached) == 0.0
  {
    if input + cached != 0 {
      var prompt := (input + cached) as real;
      assert cached as real / prompt * prompt == cached as real;
    }
  }

  /** A million times the price is the tokens at their prices, cached ones at their own, and those of reasoning only as output. */
  lemma PriceIs(usage: Usage, prices: PriceSheet)
    ensures TotalUsd(usage, prices) * 1000000.0
         == usage.inputTokens as real * prices.input + usage.cachedInputTokens as real * prices.cachedInput + usage.outputTokens as real * prices.output
  {
    OnePriceIs(usage.inputTokens, prices.input);
    OnePriceIs(usage.cachedInputTokens, prices.cachedInput);
    OnePriceIs(usage.outputTokens, prices.output);
  }

  lemma OnePriceIs(tokens: nat, price: real)
    ensures Priced(tokens, price) * 1000000.0 == tokens as real * price
  {
    var share := tokens as real / PER_MILLION;
    assert share * PER_MILLION == tokens as real;
    assert share * price * PER_MILLION == share * PER_MILLION * price;
  }

  /** The price of a sum is the sum of the prices. */
  lemma SpendAdds(a: Usage, b: Usage, prices: PriceSheet)
    ensures TotalUsd(AddUsage(a, b), prices) == TotalUsd(a, prices) + TotalUsd(b, prices)
  {
    PricedAdds(a.inputTokens, b.inputTokens, prices.input);
    PricedAdds(a.cachedInputTokens, b.cachedInputTokens, prices.cachedInput);
    PricedAdds(a.outputTokens, b.outputTokens, prices.output);
  }
}
