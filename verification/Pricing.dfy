/**
 * What a request costs, in micro-USD, with the int64 products the coordinator computes,
 * and how a cost is split between the provider and the platform.
 */
module Pricing {
  import opened Options
  import opened Machine

  type Model = string

  const PER_MILLION := 1_000_000
  const MINIMUM_CHARGE := 100
  const FEE_PERCENT := 5

  /** Two int64 quotients at most: no report can cost more, whatever it claims. */
  const MAX_COST := 2 * (INT64_MAX / PER_MILLION)

  datatype Price = Price(input: int, output: int)

  const DEFAULT_PRICE := Price(50_000, 200_000)

  const MODEL_PRICES: map<Model, Price> := map[
    "qwen3.5-27b-claude-opus-8bit" := Price(100_000, 780_000),
    "mlx-community/Trinity-Mini-8bit" := Price(23_000, 75_000),
    "mlx-community/gemma-4-26b-a4b-it-8bit" := Price(65_000, 200_000),
    "mlx-community/Qwen3.5-122B-A10B-8bit" := Price(130_000, 1_040_000),
    "mlx-community/MiniMax-M2.5-8bit" := Price(60_000, 500_000)
  ]

  function PriceOf(model: Model, custom: Option<Price>): Price {
    if custom.Some? then custom.value
    else if model in MODEL_PRICES then MODEL_PRICES[model]
    else DEFAULT_PRICE
  }

  function TokenCost(tokens: int, rate: int): int {
    TruncDiv(Wrap64(tokens * rate), PER_MILLION)
  }

  /**
   * The cost of a request: between the minimum charge and 18.5 million dollars, whatever the token
   * counts and rates.
   */
  function CalculateCost(model: Model, prompt: int, completion: int, custom: Option<Price>): (cost: int)
    ensures MINIMUM_CHARGE <= cost <= MAX_COST
  {
    var price := PriceOf(model, custom);
    var cost := Wrap64(TokenCost(prompt, price.input) + TokenCost(completion, price.output));
    if cost < MINIMUM_CHARGE then MINIMUM_CHARGE else cost
  }

  // ----- when the arithmetic is the intended one -----------------------------------

  /** The charged amount is the exact one iff the product fits in an int64; too large a product is undercharged. */
  lemma TokenCostExact(tokens: int, rate: int)
    ensures TokenCost(tokens, rate) == TruncDiv(tokens * rate, PER_MILLION) <==> INT64_MIN <= tokens * rate <= INT64_MAX
    ensures tokens * rate > INT64_MAX ==> TokenCost(tokens, rate) < TruncDiv(tokens * rate, PER_MILLION)
  {
    var x := tokens * rate;
    if x > INT64_MAX {
      WrapDrops(x);
      QuotientsApart(Wrap64(x), x);
    } else if x < INT64_MIN {
      WrapRises(x);
      QuotientsApart(x, Wrap64(x));
    }
  }

  lemma QuotientsApart(x: int, y: int)
    requires x + TWO_64 <= y
    ensures TruncDiv(x, PER_MILLION) < TruncDiv(y, PER_MILLION)
  {
  }

  /** Beyond that point the charge collapses: a larger report can cost less. */
  lemma OverflowIsCheaper()
    ensures CalculateCost("m", 0, 0x1000_0000_0000_0000, Some(Price(1, 16))) == MINIMUM_CHARGE
    ensures CalculateCost("m", 0, 0x7ff_ffff_ffff_ffff, Some(Price(1, 16))) > MINIMUM_CHARGE
  {
    assert 0x1000_0000_0000_0000 * 16 == TWO_64;
    assert Wrap64(TWO_64) == 0;
  }

  ghost predicate InRange(prompt: int, completion: int, price: Price) {
    && 0 <= prompt && 0 <= completion && 0 <= price.input && 0 <= price.output
    && prompt * price.input <= INT64_MAX && completion * price.output <= INT64_MAX
  }

  lemma Product(a: int, b: int, c: int, d: int)
    requires 0 <= a <= c && 0 <= b <= d
    ensures 0 <= a * b <= c * d
  {
    assert 0 <= a * b;
    assert a * b <= a * d;
    assert a * d <= c * d;
  }

  lemma QuotientBounds(a: int, b: int)
    requires 0 <= a <= b
    ensures 0 <= a / PER_MILLION <= b / PER_MILLION
    ensures b <= INT64_MAX ==> b / PER_MILLION <= INT64_MAX / PER_MILLION
  {
  }

  /** The cost as intended: both quotients exact, and at least the minimum charge. */
  function TrueCost(prompt: int, completion: int, price: Price): int {
    var cost := prompt * price.input / PER_MILLION + completion * price.output / PER_MILLION;
    if cost < MINIMUM_CHARGE then MINIMUM_CHARGE else cost
  }

  /** The computed cost is the intended one iff neither product overflows; otherwise it is less. */
  lemma CostExact(model: Model, prompt: int, completion: int, custom: Option<Price>)
    requires 0 <= prompt && 0 <= completion && 0 <= PriceOf(model, custom).input && 0 <= PriceOf(model, custom).output
    ensures var price := PriceOf(model, custom);
      && CalculateCost(model, prompt, completion, custom) <= TrueCost(prompt, completion, price)
      && (CalculateCost(model, prompt, completion, custom) == TrueCost(prompt, completion, price)
          <==> InRange(prompt, completion, price))
  {
    var price := PriceOf(model, custom);
    Product(0, 0, prompt, price.input);
    Product(0, 0, completion, price.output);
    hide PriceOf;
    TokenCostExact(prompt, price.input);
    TokenCostExact(completion, price.output);
    hide TokenCost;
  }

  // ----- the reservation -------------------------------------------------------------------

  const DEFAULT_TOKENS := 256

  /** What the request lets the provider generate: its token limit for each of the asked-for copies. */
  function AllowedTokens(limit: Option<int>, copies: Option<int>): nat {
    (if limit.Some? && limit.value > 0 then limit.value else DEFAULT_TOKENS)
    * (if copies.Some? && copies.value > 1 then copies.value else 1)
  }

  /** estimateRequestedMaxTokens, with its int product. */
  function RequestedMaxTokens(limit: Option<int>, copies: Option<int>): int {
    Wrap64(AllowedTokens(limit, copies))
  }

  function ReservationCost(model: Model, prompt: int, limit: Option<int>, copies: Option<int>,
                           platform: Option<Price>): int {
    CalculateCost(model, prompt, RequestedMaxTokens(limit, copies), platform)
  }

  /** The reservation is for the token limit, or 256, as often as copies are asked for, at the platform's price. */
  lemma ReservationIs(model: Model, prompt: nat, limit: int, copies: int, platform: Price)
    requires InRange(prompt, (if limit > 0 then limit else 256) * (if copies > 1 then copies else 1), platform)
    ensures ReservationCost(model, prompt, Some(limit), Some(copies), Some(platform))
         == TrueCost(prompt, (if limit > 0 then limit else 256) * (if copies > 1 then copies else 1), platform)
    ensures limit <= 0 && copies <= 1 ==>
      ReservationCost(model, prompt, None, None, Some(platform)) == TrueCost(prompt, 256, platform)
  {
    ReservedForAllowed(model, prompt, Some(limit), Some(copies), Some(platform));
    ReservedForAllowed(model, prompt, None, None, Some(platform));
    CostExact(model, prompt, AllowedTokens(Some(limit), Some(copies)), Some(platform));
    CostExact(model, prompt, AllowedTokens(None, None), Some(platform));
    hide ReservationCost, CalculateCost, TrueCost;
  }

  /**
   * The intended cost of every usage within the reserved tokens, at rates no higher than the
   * reserved ones, is within the amount.
   */
  ghost predicate Covers(amount: int, prompt: int, completion: int, price: Price) {
    forall usedPrompt: int, usedCompletion: int, charged: Price ::
      (&& 0 <= usedPrompt <= prompt && 0 <= usedCompletion <= completion
       && 0 <= charged.input <= price.input && 0 <= charged.output <= price.output) ==>
        TrueCost(usedPrompt, usedCompletion, charged) <= amount
  }

  lemma TrueCostMonotone(a: int, b: int, c: Price, p: int, m: int, r: Price)
    requires 0 <= a <= p && 0 <= b <= m && 0 <= c.input <= r.input && 0 <= c.output <= r.output
    ensures TrueCost(a, b, c) <= TrueCost(p, m, r)
  {
    Product(a, c.input, p, r.input);
    Product(b, c.output, m, r.output);
    QuotientBounds(a * c.input, p * r.input);
    QuotientBounds(b * c.output, m * r.output);
  }

  /** The reserved amount is the one for the allowed tokens, even where their int product has already wrapped. */
  lemma ReservedForAllowed(model: Model, prompt: int, limit: Option<int>, copies: Option<int>, platform: Option<Price>)
    ensures ReservationCost(model, prompt, limit, copies, platform)
         == CalculateCost(model, prompt, AllowedTokens(limit, copies), platform)
  {
    WrapProduct(AllowedTokens(limit, copies), PriceOf(model, platform).output);
    hide Wrap64, AllowedTokens, PriceOf, TruncDiv;
  }

  /**
   * A reservation covers the intended cost of everything the request allows iff neither token
   * product overflows. Stored prices are positive.
   */
  lemma ReservationCovers(model: Model, prompt: nat, limit: Option<int>, copies: Option<int>, platform: Option<Price>)
    requires 0 <= PriceOf(model, platform).input && 0 <= PriceOf(model, platform).output
    ensures var price, allowed := PriceOf(model, platform), AllowedTokens(limit, copies);
      Covers(ReservationCost(model, prompt, limit, copies, platform), prompt, allowed, price)
      <==> InRange(prompt, allowed, price)
  {
    var price, allowed := PriceOf(model, platform), AllowedTokens(limit, copies);
    var amount := ReservationCost(model, prompt, limit, copies, platform);
    ReservedForAllowed(model, prompt, limit, copies, platform);
    CostExact(model, prompt, allowed, platform);
    hide CalculateCost, AllowedTokens, ReservationCost, InRange, TrueCost, PriceOf;
    if InRange(prompt, allowed, price) {
      forall a: int, b: int, c: Price |
        0 <= a <= prompt && 0 <= b <= allowed && 0 <= c.input <= price.input && 0 <= c.output <= price.output
        ensures TrueCost(a, b, c) <= amount
      {
        TrueCostMonotone(a, b, c, prompt, allowed, price);
      }
    } else {
      assert TrueCost(prompt, allowed, price) > amount;
    }
  }

  /** A completed job within a reservation that fits is never charged more, so it never meets the clamp. */
  lemma ChargedWithinReservation(model: Model, prompt: nat, limit: Option<int>, copies: Option<int>,
                                 platform: Option<Price>, usedPrompt: int, usedCompletion: int, charged: Price)
    requires InRange(prompt, AllowedTokens(limit, copies), PriceOf(model, platform))
    requires 0 <= usedPrompt <= prompt && 0 <= usedCompletion <= AllowedTokens(limit, copies)
    requires 0 <= charged.input <= PriceOf(model, platform).input
    requires 0 <= charged.output <= PriceOf(model, platform).output
    ensures CalculateCost(model, usedPrompt, usedCompletion, Some(charged))
         <= ReservationCost(model, prompt, limit, copies, platform)
  {
    ReservationCovers(model, prompt, limit, copies, platform);
    CostExact(model, usedPrompt, usedCompletion, Some(charged));
    hide CalculateCost, AllowedTokens, ReservationCost, InRange, TrueCost;
  }

  /** The charged amounts may be covered although the reservation overflowed: this one wraps to the largest int64. */
  lemma OverflowMayStillCover(usedCompletion: int, charged: Price)
    requires 0 <= charged.output <= 11
    ensures !InRange(0, 5869418568907584605, Price(1, 11))
    ensures CalculateCost("m", 0, usedCompletion, Some(charged))
         <= ReservationCost("m", 0, Some(5869418568907584605), None, Some(Price(1, 11)))
  {
    WrapUnique(5869418568907584605 * 11, INT64_MAX, 3);
  }

  /**
   * A limit of 2^62 tokens at the default price reserves the minimum charge; a million of them cost
   * 2000 times as much.
   */
  lemma ReservationCollapses()
    ensures ReservationCost("m", 0, Some(0x4000_0000_0000_0000), None, None) == MINIMUM_CHARGE
    ensures CalculateCost("m", 0, 1_000_000, None) == 200_000
  {
    assert 0x4000_0000_0000_0000 * 200_000 == 50_000 * TWO_64;
    WrapUnique(50_000 * TWO_64, 0, 50_000);
  }

  // ----- the platform's share ----------------------------------------------------------

  function PlatformFee(cost: int): int {
    TruncDiv(Wrap64(cost * FEE_PERCENT), 100)
  }

  function ProviderPayout(cost: int): int {
    Wrap64(cost - PlatformFee(cost))
  }

  /**
   * The fee is a twentieth rounded down, and fee and payout share the cost without remainder, iff the
   * product does not overflow.
   */
  lemma FeeSplit(cost: int)
    requires 0 <= cost <= INT64_MAX
    ensures cost * FEE_PERCENT <= INT64_MAX <==> 20 * PlatformFee(cost) <= cost < 20 * (PlatformFee(cost) + 1)
    ensures cost * FEE_PERCENT <= INT64_MAX ==>
      0 <= PlatformFee(cost) && 0 <= ProviderPayout(cost) && PlatformFee(cost) + ProviderPayout(cost) == cost
  {
  }
}
