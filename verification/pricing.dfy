/**
 * What one usage entry costs (internal/master/billing/settler.go:111-153, 342-399), over exact real
 * prices and ratios; conversions to integers truncate toward zero as in the source.
 */
module Pricing {
  import opened Options

  /** The part of a usage entry that pricing looks at; `isPrivate` says that its owner type is "private". */
  datatype Metered = Metered(
    isPrivate: bool, free: bool, priceRatio: real,
    promptTokens: int, completionTokens: int, cacheReadTokens: int, cacheWriteTokens: int)

  /** USD per million tokens; all zero for a model without pricing. */
  datatype Prices = Prices(input: real, output: real, cacheRead: real, cacheWrite: real)

  /** The stored BYOK mode, if its row is found, and the ratio. */
  datatype ByokSettings = ByokSettings(stored: Option<string>, serviceFeeRatio: real)

  datatype Costs = Costs(input: int, output: int, cacheRead: int, cacheWrite: int)

  /** `raw` are the costs before any factor, `factor` the billing factor written to the log. */
  datatype Bill = Bill(costs: Costs, total: int, raw: Costs, factor: real)

  const QUOTA_PER_DOLLAR := 100000.0
  const NO_COSTS := Costs(0, 0, 0, 0)

  const FREE_MODE := "free"
  const SERVICE_FEE_MODE := "service_fee"

  function Mode(s: ByokSettings): string {
    if s.stored.Some? then s.stored.value else FREE_MODE
  }

  function Truncate(x: real): int {
    if x >= 0.0 then x.Floor else -((-x).Floor)
  }

  /** What a factor makes of an amount, before rounding. */
  function Scaled(factor: real, amount: int): real {
    amount as real * factor
  }

  /** The price of some tokens in quota units, before rounding. */
  function Exact(tokens: int, price: real): real {
    Scaled(price, tokens) / 1000000.0 * QUOTA_PER_DOLLAR
  }

  function TokenCost(tokens: int, price: real): int {
    Truncate(Exact(tokens, price))
  }

  function Sum(c: Costs): int {
    c.input + c.output + c.cacheRead + c.cacheWrite
  }

  function RawCosts(e: Metered, p: Prices): Costs {
    Costs(
      TokenCost(e.promptTokens, p.input),
      TokenCost(e.completionTokens, p.output),
      if e.cacheReadTokens > 0 && p.cacheRead > 0.0 then TokenCost(e.cacheReadTokens, p.cacheRead) else 0,
      if e.cacheWriteTokens > 0 && p.cacheWrite > 0.0 then TokenCost(e.cacheWriteTokens, p.cacheWrite) else 0)
  }

  function ScaleOne(cost: int, ratio: real): int {
    Truncate(Scaled(ratio, cost))
  }

  function Scale(c: Costs, ratio: real): Costs {
    Costs(ScaleOne(c.input, ratio), ScaleOne(c.output, ratio), ScaleOne(c.cacheRead, ratio),
      ScaleOne(c.cacheWrite, ratio))
  }

  /** applyByokBillingMode; the mode it returns is empty for entries of public channels. */
  function ApplyByokMode(e: Metered, s: ByokSettings, c: Costs): (Costs, string, real) {
    if !e.isPrivate then (c, "", 0.0)
    else if Mode(s) == SERVICE_FEE_MODE then (Scale(c, s.serviceFeeRatio), Mode(s), s.serviceFeeRatio)
    else (NO_COSTS, Mode(s), 0.0)
  }

  /** applyChannelPriceRatio: a ratio that is not positive means the original price. */
  function EffectiveRatio(e: Metered): real {
    if e.priceRatio <= 0.0 then 1.0 else e.priceRatio
  }

  function Charge(e: Metered, p: Prices, s: ByokSettings): Bill {
    var raw := RawCosts(e, p);
    if e.free then Bill(NO_COSTS, 0, raw, 0.0)
    else
      var (costs, mode, factor) := ApplyByokMode(e, s, raw);
      if mode != "" then Bill(costs, Sum(costs), raw, factor)
      else
        var scaled := Scale(costs, EffectiveRatio(e));
        Bill(scaled, Sum(scaled), raw, EffectiveRatio(e))
  }

  ghost predicate NonNegative(e: Metered, p: Prices, s: ByokSettings) {
    && e.promptTokens >= 0 && e.completionTokens >= 0 && e.cacheReadTokens >= 0 && e.cacheWriteTokens >= 0
    && p.input >= 0.0 && p.output >= 0.0 && p.cacheRead >= 0.0 && p.cacheWrite >= 0.0
    && s.serviceFeeRatio >= 0.0
  }

  /** A BYOK entry whose stored mode is the empty string is zeroed, then billed as if it were public. */
  predicate FallsThrough(e: Metered, s: ByokSettings) {
    !e.free && e.isPrivate && Mode(s) == ""
  }

  // ---------------------------------------------------------------------------------------------
  // Bounds
  // ---------------------------------------------------------------------------------------------

  lemma {:induction false} ProductNonNegative(a: real, b: real)
    requires a >= 0.0 && b >= 0.0
    ensures a * b >= 0.0
  {
  }

  lemma {:induction false} ScaledSign(factor: real, amount: int)
    requires factor >= 0.0 && amount >= 0
    ensures Scaled(factor, amount) >= 0.0
    ensures amount == 0 || factor == 0.0 ==> Scaled(factor, amount) == 0.0
  {
    ProductNonNegative(amount as real, factor);
  }

  lemma {:induction false} ScaledMonotone(m: int, n: int, factor: real)
    requires m <= n && factor >= 0.0
    ensures Scaled(factor, m) <= Scaled(factor, n)
  {
    ProductNonNegative((n - m) as real, factor);
    assert n as real * factor == m as real * factor + (n - m) as real * factor;
  }

  lemma {:induction false} TokenCostBounds(tokens: int, price: real)
    requires tokens >= 0 && price >= 0.0
    ensures 0 <= TokenCost(tokens, price)
    ensures Exact(tokens, price) - 1.0 < TokenCost(tokens, price) as real <= Exact(tokens, price)
    ensures tokens == 0 || price == 0.0 ==> Exact(tokens, price) == 0.0
  {
    hide Scaled;
    ScaledSign(price, tokens);
  }

  lemma {:induction false} ScaleOneBounds(cost: int, ratio: real)
    requires cost >= 0 && ratio >= 0.0
    ensures 0 <= ScaleOne(cost, ratio)
    ensures Scaled(ratio, cost) - 1.0 < ScaleOne(cost, ratio) as real <= Scaled(ratio, cost)
  {
    hide Scaled;
    ScaledSign(ratio, cost);
  }

  ghost predicate CostsNonNegative(c: Costs) {
    c.input >= 0 && c.output >= 0 && c.cacheRead >= 0 && c.cacheWrite >= 0
  }

  lemma {:induction false} RawNonNegative(e: Metered, p: Prices, s: ByokSettings)
    requires NonNegative(e, p, s)
    ensures CostsNonNegative(RawCosts(e, p))
  {
    hide TokenCost, Exact;
    TokenCostBounds(e.promptTokens, p.input);
    TokenCostBounds(e.completionTokens, p.output);
    TokenCostBounds(e.cacheReadTokens, p.cacheRead);
    TokenCostBounds(e.cacheWriteTokens, p.cacheWrite);
  }

  lemma {:induction false} ScaledAdds(factor: real, a: int, b: int)
    ensures Scaled(factor, a + b) == Scaled(factor, a) + Scaled(factor, b)
  {
    assert (a + b) as real == a as real + b as real;
  }

  lemma {:induction false} ScaledNonNegative(factor: real, c: Costs)
    requires factor >= 0.0 && CostsNonNegative(c)
    ensures Scaled(factor, Sum(c)) >= 0.0 && Scaled(0.0, Sum(c)) == 0.0
  {
    ScaledSign(factor, Sum(c));
  }

  lemma {:induction false} ScaleBounds(c: Costs, ratio: real)
    requires CostsNonNegative(c) && ratio >= 0.0
    ensures CostsNonNegative(Scale(c, ratio))
    ensures Scaled(ratio, Sum(c)) - 4.0 < Sum(Scale(c, ratio)) as real <= Scaled(ratio, Sum(c))
  {
    hide ScaleOne, Scaled;
    ScaleOneBounds(c.input, ratio);
    ScaleOneBounds(c.output, ratio);
    ScaleOneBounds(c.cacheRead, ratio);
    ScaleOneBounds(c.cacheWrite, ratio);
    ScaledAdds(ratio, c.input, c.output);
    ScaledAdds(ratio, c.input + c.output, c.cacheRead);
    ScaledAdds(ratio, c.input + c.output + c.cacheRead, c.cacheWrite);
  }

  lemma {:induction false} ScaleNothing(ratio: real)
    ensures Scale(NO_COSTS, ratio) == NO_COSTS && Sum(NO_COSTS) == 0 && CostsNonNegative(NO_COSTS)
  {
  }

  /** The branches of the charge: scaled by its factor, or nothing at all. */
  lemma {:induction false} ChargeCases(e: Metered, p: Prices, s: ByokSettings)
    ensures var b, raw := Charge(e, p, s), RawCosts(e, p);
      && b.raw == raw && b.total == Sum(b.costs)
      && (if e.free || (e.isPrivate && Mode(s) != SERVICE_FEE_MODE)
          then b.costs == NO_COSTS && b.factor == if FallsThrough(e, s) then EffectiveRatio(e) else 0.0
          else
            && b.factor == (if e.isPrivate then s.serviceFeeRatio else EffectiveRatio(e))
            && b.costs == Scale(raw, b.factor))
  {
    hide RawCosts, Scale, Sum, EffectiveRatio, Truncate;
    ScaleNothing(EffectiveRatio(e));
  }

  /** The total is the sum of the four buckets, none negative, and is never more than the factor says. */
  lemma {:induction false} NeverOvercharged(e: Metered, p: Prices, s: ByokSettings)
    requires NonNegative(e, p, s)
    ensures var b := Charge(e, p, s);
      && b.total == Sum(b.costs) && CostsNonNegative(b.costs)
      && 0 <= b.total && b.total as real <= Scaled(b.factor, Sum(b.raw))
  {
    hide Charge, RawCosts, Scale, Scaled, CostsNonNegative, Sum;
    var b := Charge(e, p, s);
    ChargeCases(e, p, s);
    RawNonNegative(e, p, s);
    ScaleNothing(b.factor);
    ScaleBounds(b.raw, b.factor);
    ScaledNonNegative(b.factor, b.raw);
    TotalNonNegative(b.costs);
  }

  lemma {:induction false} TotalNonNegative(c: Costs)
    requires CostsNonNegative(c)
    ensures Sum(c) >= 0
  {
  }

  /**
   * Truncation loses less than one unit a bucket - except for a BYOK entry under an empty stored mode,
   * which is charged nothing while its log says the public factor.
   */
  lemma {:induction false} UnderchargedOnlyByFallThrough(e: Metered, p: Prices, s: ByokSettings)
    requires NonNegative(e, p, s)
    ensures
      var b := Charge(e, p, s);
      (Scaled(b.factor, Sum(b.raw)) - b.total as real < 4.0)
      <==> (!FallsThrough(e, s) || Scaled(EffectiveRatio(e), Sum(RawCosts(e, p))) < 4.0)
  {
    hide Charge, RawCosts, Scale, Scaled, CostsNonNegative, Sum;
    var b := Charge(e, p, s);
    ChargeCases(e, p, s);
    RawNonNegative(e, p, s);
    ScaleNothing(b.factor);
    ScaleBounds(b.raw, b.factor);
    ScaledNonNegative(b.factor, b.raw);
  }

  /**
   * Under the two modes that the settings can be changed to (internal/master/api/system/settings.go:103-110,
   * 188-190), and under none, the shortfall is always that small.
   */
  lemma {:induction false} WritableModesLoseLittle(e: Metered, p: Prices, s: ByokSettings)
    requires NonNegative(e, p, s) && (s.stored.None? || s.stored == Some("free") || s.stored == Some("service_fee"))
    ensures var b := Charge(e, p, s); Scaled(b.factor, Sum(b.raw)) - b.total as real < 4.0
  {
    hide Charge, RawCosts, Scaled, Sum;
    UnderchargedOnlyByFallThrough(e, p, s);
  }

  /** A million prompt tokens at a dollar, under an empty mode: the log says 100000 at factor 1, nothing is charged. */
  lemma {:induction false} EmptyModeUndercharges(s: ByokSettings)
    requires s.stored == Some("")
    ensures var e := Metered(true, false, 1.0, 1000000, 0, 0, 0); var b := Charge(e, Prices(1.0, 0.0, 0.0, 0.0), s);
      b.total == 0 && b.factor == 1.0 && Sum(b.raw) == 100000
  {
    var e, p := Metered(true, false, 1.0, 1000000, 0, 0, 0), Prices(1.0, 0.0, 0.0, 0.0);
    assert Exact(1000000, 1.0) == 100000.0;
    assert RawCosts(e, p) == Costs(100000, 0, 0, 0);
    hide RawCosts, Scale;
    ChargeCases(e, p, s);
  }

  /** The raw costs are the exact price of the tokens, less at most a fraction of a unit a bucket. */
  lemma {:induction false} RawIsExactPriceRoundedDown(e: Metered, p: Prices, s: ByokSettings)
    requires NonNegative(e, p, s)
    ensures
      var exact := Exact(e.promptTokens, p.input) + Exact(e.completionTokens, p.output)
        + Exact(e.cacheReadTokens, p.cacheRead) + Exact(e.cacheWriteTokens, p.cacheWrite);
      exact - 4.0 < Sum(RawCosts(e, p)) as real <= exact
  {
    hide TokenCost, Exact;
    TokenCostBounds(e.promptTokens, p.input);
    TokenCostBounds(e.completionTokens, p.output);
    TokenCostBounds(e.cacheReadTokens, p.cacheRead);
    TokenCostBounds(e.cacheWriteTokens, p.cacheWrite);
  }

  // ---------------------------------------------------------------------------------------------
  // Monotonicity
  // ---------------------------------------------------------------------------------------------

  ghost predicate UsesNoMore(a: Metered, b: Metered) {
    && a.isPrivate == b.isPrivate && a.free == b.free && a.priceRatio == b.priceRatio
    && a.promptTokens <= b.promptTokens && a.completionTokens <= b.completionTokens
    && a.cacheReadTokens <= b.cacheReadTokens && a.cacheWriteTokens <= b.cacheWriteTokens
  }

  ghost predicate CostsNoMore(a: Costs, b: Costs) {
    a.input <= b.input && a.output <= b.output && a.cacheRead <= b.cacheRead && a.cacheWrite <= b.cacheWrite
  }

  lemma {:induction false} TruncateMonotone(x: real, y: real)
    requires x <= y
    ensures Truncate(x) <= Truncate(y)
  {
  }

  lemma {:induction false} TokenCostMonotone(m: int, n: int, price: real)
    requires 0 <= m <= n && price >= 0.0
    ensures TokenCost(m, price) <= TokenCost(n, price)
  {
    hide Truncate, Scaled;
    ScaledMonotone(m, n, price);
    TruncateMonotone(Exact(m, price), Exact(n, price));
  }

  lemma {:induction false} RawMonotone(a: Metered, b: Metered, p: Prices, s: ByokSettings)
    requires NonNegative(a, p, s) && UsesNoMore(a, b)
    ensures CostsNoMore(RawCosts(a, p), RawCosts(b, p))
  {
    hide TokenCost, Exact;
    TokenCostMonotone(a.promptTokens, b.promptTokens, p.input);
    TokenCostMonotone(a.completionTokens, b.completionTokens, p.output);
    TokenCostMonotone(a.cacheReadTokens, b.cacheReadTokens, p.cacheRead);
    TokenCostMonotone(a.cacheWriteTokens, b.cacheWriteTokens, p.cacheWrite);
    TokenCostBounds(b.cacheReadTokens, p.cacheRead);
    TokenCostBounds(b.cacheWriteTokens, p.cacheWrite);
  }

  lemma {:induction false} ScaleOneMonotone(m: int, n: int, ratio: real)
    requires m <= n && ratio >= 0.0
    ensures ScaleOne(m, ratio) <= ScaleOne(n, ratio)
  {
    hide Truncate, Scaled;
    ScaledMonotone(m, n, ratio);
    TruncateMonotone(Scaled(ratio, m), Scaled(ratio, n));
  }

  lemma {:induction false} ScaleMonotone(a: Costs, b: Costs, ratio: real)
    requires CostsNoMore(a, b) && ratio >= 0.0
    ensures CostsNoMore(Scale(a, ratio), Scale(b, ratio))
  {
    hide ScaleOne;
    ScaleOneMonotone(a.input, b.input, ratio);
    ScaleOneMonotone(a.output, b.output, ratio);
    ScaleOneMonotone(a.cacheRead, b.cacheRead, ratio);
    ScaleOneMonotone(a.cacheWrite, b.cacheWrite, ratio);
  }

  /** More tokens of any kind never cost less, bucket by bucket and in total. */
  lemma {:induction false} ChargeMonotone(a: Metered, b: Metered, p: Prices, s: ByokSettings)
    requires NonNegative(a, p, s) && UsesNoMore(a, b)
    ensures CostsNoMore(Charge(a, p, s).costs, Charge(b, p, s).costs)
    ensures Charge(a, p, s).total <= Charge(b, p, s).total
    ensures Charge(a, p, s).factor == Charge(b, p, s).factor
  {
    hide RawCosts, Scale;
    RawMonotone(a, b, p, s);
    ScaleMonotone(RawCosts(a, p), RawCosts(b, p), s.serviceFeeRatio);
    ScaleMonotone(RawCosts(a, p), RawCosts(b, p), EffectiveRatio(a));
  }
}
