/** Frozen model prices and the cost of one call (budgets.py, model_costs.py).
    `Decimal` amounts are exact non-negative reals. */
module Pricing {
  import opened Prelude

  type Usd = r: real | r >= 0.0

  datatype MetadataSource = RuntimeCatalog | ProviderCatalog | UserSupplied | ConfirmedZero

  /** Input and output prices are configured together, with exactly one source. */
  datatype Rates = Rates(input: Usd, output: Usd, source: MetadataSource)

  datatype CachePricing = CachePricing(read: Usd, write: Usd, source: MetadataSource)

  /** Disjoint cached-input buckets; a missing counter stays unknown. */
  datatype CacheUsage = CacheUsage(read: Option<nat>, write: Option<nat>)

  datatype ModelPricing = ModelPricing(
    model: string,
    rates: Option<Rates>,
    cache: Option<CachePricing>,
    maxInputTokens: Option<nat>,
    maxOutputTokens: Option<nat>)

  predicate ConfirmedZeroPricing(rates: Option<Rates>, cache: Option<CachePricing>) {
    && rates.Some?
    && rates.value.source.ConfirmedZero?
    && rates.value.input == 0.0
    && rates.value.output == 0.0
    && cache.Some?
    && cache.value.source.ConfirmedZero?
    && cache.value.read == 0.0
    && cache.value.write == 0.0
  }

  function Charge(tokens: nat, rate: Usd): (cost: Usd)
    ensures rate == 0.0 ==> cost == 0.0
  {
    MonotoneProduct(0.0, tokens as real, rate);
    tokens as real * rate
  }

  lemma MonotoneProduct(a: real, b: real, rate: real)
    requires a <= b && 0.0 <= rate
    ensures a * rate <= b * rate
  {
    assert (b - a) * rate >= 0.0;
  }

  /** Price normalized usage once. A cache bucket without a price is only free
      when nothing was read from it and nothing was written to it. */
  function EstimateModelCost(inputTokens: Option<nat>, outputTokens: Option<nat>,
                             rates: Option<Rates>, usage: CacheUsage,
                             cache: Option<CachePricing>): Option<Usd>
  {
    if inputTokens.None? || outputTokens.None? || rates.None? then None
    else
      var amount: Usd := Charge(inputTokens.value, rates.value.input)
                         + Charge(outputTokens.value, rates.value.output);
      if usage.read.None? || usage.write.None? then None
      else if cache.None? then
        if usage.read.value != 0 || usage.write.value != 0 then None
        else Some(amount / 1000000.0)
      else
        var cached: Usd := Charge(usage.read.value, cache.value.read)
                           + Charge(usage.write.value, cache.value.write);
        Some((amount + cached) / 1000000.0)
  }

  /** A fully confirmed zero price makes the amount independent of telemetry. */
  function EstimateCallCost(inputTokens: Option<nat>, outputTokens: Option<nat>,
                            rates: Option<Rates>, usage: CacheUsage,
                            cache: Option<CachePricing>): Option<Usd>
  {
    if ConfirmedZeroPricing(rates, cache) then Some(0.0)
    else EstimateModelCost(inputTokens, outputTokens, rates, usage, cache)
  }

  function Max(a: Usd, b: Usd): Usd {
    if a < b then b else a
  }

  /** Bound on one provider request; absent limits or prices give no bound. */
  function MaxRequestCost(p: ModelPricing): Option<Usd> {
    if p.maxInputTokens.None? || p.maxOutputTokens.None? || p.rates.None? || p.cache.None? then None
    else
      var rate := Max(Max(p.rates.value.input, p.cache.value.read), p.cache.value.write);
      var total: Usd := Charge(p.maxInputTokens.value, rate)
                        + Charge(p.maxOutputTokens.value, p.rates.value.output);
      Some(total / 1000000.0)
  }

  lemma ChargeMonotone(tokens: nat, limit: nat, rate: Usd, top: Usd)
    requires tokens <= limit && rate <= top
    ensures Charge(tokens, rate) <= Charge(limit, top)
  {
    MonotoneProduct(rate, top, tokens as real);
    MonotoneProduct(tokens as real, limit as real, top);
  }

  lemma ChargeSum(a: nat, b: nat, c: nat, rate: Usd)
    ensures Charge(a, rate) + Charge(b, rate) + Charge(c, rate) == Charge(a + b + c, rate)
  {
  }

  lemma PromptWithinBound(input: nat, read: nat, write: nat, limit: nat,
                          plain: Usd, hit: Usd, store: Usd, top: Usd)
    requires input + read + write <= limit
    requires plain <= top && hit <= top && store <= top
    ensures Charge(input, plain) + Charge(read, hit) + Charge(write, store) <= Charge(limit, top)
  {
    ChargeMonotone(input, input, plain, top);
    ChargeMonotone(read, read, hit, top);
    ChargeMonotone(write, write, store, top);
    ChargeSum(input, read, write, top);
    ChargeMonotone(input + read + write, limit, top, top);
  }

  lemma DividedWithin(a: real, b: real, c: real, d: real)
    requires a <= c && b <= d
    ensures (a + b) / 1000000.0 <= (c + d) / 1000000.0
  {
  }

  /** The bound covers every split of one request's prompt into fresh, read and
      written tokens that stays within the frozen token limits. */
  lemma RequestBoundCoversRequest(p: ModelPricing, input: nat, output: nat, usage: CacheUsage)
    requires MaxRequestCost(p).Some?
    requires usage.read.Some? && usage.write.Some?
    requires input + usage.read.value + usage.write.value <= p.maxInputTokens.value
    requires output <= p.maxOutputTokens.value
    ensures var cost := EstimateModelCost(Some(input), Some(output), p.rates, usage, p.cache);
            cost.Some? && cost.value <= MaxRequestCost(p).value
  {
    var r, c := p.rates.value, p.cache.value;
    var top := Max(Max(r.input, c.read), c.write);
    PromptWithinBound(input, usage.read.value, usage.write.value, p.maxInputTokens.value,
                      r.input, c.read, c.write, top);
    ChargeMonotone(output, p.maxOutputTokens.value, r.output, r.output);
    var plain := Charge(input, r.input);
    var cached := Charge(usage.read.value, c.read) + Charge(usage.write.value, c.write);
    DividedWithin(plain + cached, Charge(output, r.output),
                  Charge(p.maxInputTokens.value, top), Charge(p.maxOutputTokens.value, r.output));
    assert (plain + Charge(output, r.output)) + cached == (plain + cached) + Charge(output, r.output);
  }
}
