/** List prices, and the upper bounds a budget reserves before it sends a request. */
module Pricing {
  datatype TokenUsage = TokenUsage(input: nat, output: nat, cacheCreation: nat, cacheRead: nat) {
    /** Input tokens exclude cached ones, which are billed separately. */
    function PromptTokens(): nat {
      input + cacheCreation + cacheRead
    }
  }

  /** US dollars per million tokens. */
  datatype ModelPrice = ModelPrice(
    input: real, output: real, cacheWrite: real, cacheRead: real, longPromptMultiplier: real)

  /** What the bounds need of a price list: no negative rate, cheap cache reads, no long-prompt discount. */
  predicate SanePrice(price: ModelPrice) {
    && price.input >= 0.0
    && price.output >= 0.0
    && price.cacheWrite >= 0.0
    && 0.0 <= price.cacheRead <= price.input
    && price.longPromptMultiplier >= 1.0
  }

  const LONG_PROMPT_TOKENS: nat := 100_000
  const API_PROMPT_TOKENS_MAX: nat := 2_000
  const TOKENS_PER_PRICE_UNIT: real := 1000000.0

  function Multiplier(price: ModelPrice, promptTokens: nat): real {
    if promptTokens > LONG_PROMPT_TOKENS then price.longPromptMultiplier else 1.0
  }

  /** The list price of the tokens before the long-prompt multiplier. */
  function FlatCost(price: ModelPrice, usage: TokenUsage): real {
    usage.input as real * price.input
    + usage.output as real * price.output
    + usage.cacheCreation as real * price.cacheWrite
    + usage.cacheRead as real * price.cacheRead
  }

  function RequestCost(price: ModelPrice, usage: TokenUsage): real {
    Multiplier(price, usage.PromptTokens()) * FlatCost(price, usage) / TOKENS_PER_PRICE_UNIT
  }

  function WorstCaseUsage(promptSize: nat, maxOutputTokens: nat): TokenUsage {
    TokenUsage(promptSize + API_PROMPT_TOKENS_MAX, maxOutputTokens, 0, 0)
  }

  function WorstCaseCost(price: ModelPrice, promptSize: nat, maxOutputTokens: nat): real {
    RequestCost(price, WorstCaseUsage(promptSize, maxOutputTokens))
  }

  /** The sum over turns: each one may resend a full output for every turn before it. */
  function QuestionWorstCase(price: ModelPrice, maxPromptChars: nat, maxOutputTokens: nat, turns: nat): real {
    if turns == 0 then 0.0
    else QuestionWorstCase(price, maxPromptChars, maxOutputTokens, turns - 1)
         + WorstCaseCost(price, TurnPrompt(maxPromptChars, maxOutputTokens, turns - 1), maxOutputTokens)
  }

  function TurnPrompt(maxPromptChars: nat, maxOutputTokens: nat, earlierTurns: nat): nat {
    maxPromptChars + earlierTurns * maxOutputTokens
  }

  /** The token counts a request may report: its prompt, the API's own prompt, and a full output. */
  predicate WithinTokenLimits(usage: TokenUsage, promptSize: nat, maxOutputTokens: nat) {
    usage.PromptTokens() <= promptSize + API_PROMPT_TOKENS_MAX && usage.output <= maxOutputTokens
  }

  // -- one request -----------------------------------------------------------

  lemma ProductsAreMonotone(a: real, b: real, x: real, y: real)
    requires 0.0 <= a <= b && 0.0 <= x <= y
    ensures 0.0 <= a * x <= b * y
  {
    assert a * x <= b * x;
    assert b * x <= b * y;
  }

  ghost predicate NoMore(fewer: TokenUsage, more: TokenUsage) {
    && fewer.input <= more.input && fewer.output <= more.output
    && fewer.cacheCreation <= more.cacheCreation && fewer.cacheRead <= more.cacheRead
  }

  lemma FlatCostGrows(price: ModelPrice, fewer: TokenUsage, more: TokenUsage)
    requires SanePrice(price) && NoMore(fewer, more)
    ensures 0.0 <= FlatCost(price, fewer) <= FlatCost(price, more)
  {
    ProductsAreMonotone(price.input, price.input, fewer.input as real, more.input as real);
    ProductsAreMonotone(price.output, price.output, fewer.output as real, more.output as real);
    ProductsAreMonotone(price.cacheWrite, price.cacheWrite, fewer.cacheCreation as real, more.cacheCreation as real);
    ProductsAreMonotone(price.cacheRead, price.cacheRead, fewer.cacheRead as real, more.cacheRead as real);
  }

  /** Tokens at rates no higher than that of input cost no more than as many input tokens. */
  lemma InputCostsMost(input: real, write: real, read: real, plain: real, written: real, reread: real)
    requires 0.0 <= read <= input && plain >= 0.0 && reread >= 0.0 && written >= 0.0
    requires written == 0.0 || write <= input
    ensures plain * input + written * write + reread * read <= (plain + written + reread) * input
  {
    assert reread * read <= reread * input;
    if written > 0.0 {
      assert written * write <= written * input;
    }
    assert (plain + written + reread) * input == plain * input + written * input + reread * input;
  }

  lemma FlatCostIsMonotone(price: ModelPrice, usage: TokenUsage, promptTokens: nat, output: nat)
    requires SanePrice(price)
    requires usage.cacheCreation == 0 || price.cacheWrite <= price.input
    requires usage.PromptTokens() <= promptTokens && usage.output <= output
    ensures 0.0 <= FlatCost(price, usage) <= FlatCost(price, TokenUsage(promptTokens, output, 0, 0))
  {
    var plain, written, reread := usage.input as real, usage.cacheCreation as real, usage.cacheRead as real;
    var allInput := TokenUsage(usage.PromptTokens(), usage.output, 0, 0);
    FlatCostGrows(price, usage, usage);
    FlatCostGrows(price, allInput, TokenUsage(promptTokens, output, 0, 0));
    InputCostsMost(price.input, price.cacheWrite, price.cacheRead, plain, written, reread);
    assert allInput.input as real == plain + written + reread;
  }

  /** Cost never falls as any of the four counts grows, even across the jump of the long-prompt multiplier. */
  lemma CostIsMonotone(price: ModelPrice, fewer: TokenUsage, more: TokenUsage)
    requires SanePrice(price) && NoMore(fewer, more)
    ensures 0.0 <= RequestCost(price, fewer) <= RequestCost(price, more)
  {
    hide FlatCost;
    FlatCostGrows(price, fewer, more);
    ProductsAreMonotone(
      Multiplier(price, fewer.PromptTokens()), Multiplier(price, more.PromptTokens()),
      FlatCost(price, fewer), FlatCost(price, more));
  }

  /** A prompt costs no more than one of at least its size that is all plain input. */
  lemma PlainInputCostsMost(price: ModelPrice, usage: TokenUsage, promptTokens: nat, output: nat)
    requires SanePrice(price)
    requires usage.cacheCreation == 0 || price.cacheWrite <= price.input
    requires usage.PromptTokens() <= promptTokens && usage.output <= output
    ensures 0.0 <= RequestCost(price, usage) <= RequestCost(price, TokenUsage(promptTokens, output, 0, 0))
  {
    var bound := TokenUsage(promptTokens, output, 0, 0);
    FlatCostIsMonotone(price, usage, promptTokens, output);
    ProductsAreMonotone(
      Multiplier(price, usage.PromptTokens()), Multiplier(price, bound.PromptTokens()),
      FlatCost(price, usage), FlatCost(price, bound));
  }

  lemma CostsAreNonNegative(price: ModelPrice, usage: TokenUsage)
    requires SanePrice(price)
    ensures RequestCost(price, usage) >= 0.0
  {
    ProductsAreMonotone(price.input, price.input, 0.0, usage.input as real);
    ProductsAreMonotone(price.output, price.output, 0.0, usage.output as real);
    ProductsAreMonotone(price.cacheWrite, price.cacheWrite, 0.0, usage.cacheCreation as real);
    ProductsAreMonotone(price.cacheRead, price.cacheRead, 0.0, usage.cacheRead as real);
    ProductsAreMonotone(
      Multiplier(price, usage.PromptTokens()), Multiplier(price, usage.PromptTokens()), 0.0, FlatCost(price, usage));
  }

  /** A request without cache writes costs no more than what was reserved for it. */
  lemma WorstCaseBoundsRequest(price: ModelPrice, usage: TokenUsage, promptSize: nat, maxOutputTokens: nat)
    requires SanePrice(price) && usage.cacheCreation == 0
    requires WithinTokenLimits(usage, promptSize, maxOutputTokens)
    ensures 0.0 <= RequestCost(price, usage) <= WorstCaseCost(price, promptSize, maxOutputTokens)
  {
    PlainInputCostsMost(price, usage, promptSize + API_PROMPT_TOKENS_MAX, maxOutputTokens);
  }

  ghost predicate BoundsEveryUsage(price: ModelPrice, promptSize: nat, maxOutputTokens: nat) {
    forall usage: TokenUsage :: WithinTokenLimits(usage, promptSize, maxOutputTokens) ==>
      RequestCost(price, usage) <= WorstCaseCost(price, promptSize, maxOutputTokens)
  }

  /** With cache writes allowed, the bound is one exactly when a cache write is no dearer than input. */
  lemma WorstCaseBoundsEveryUsageIff(price: ModelPrice, promptSize: nat, maxOutputTokens: nat)
    requires SanePrice(price)
    ensures BoundsEveryUsage(price, promptSize, maxOutputTokens) <==> price.cacheWrite <= price.input
  {
    var prompt := promptSize + API_PROMPT_TOKENS_MAX;
    if price.cacheWrite <= price.input {
      forall usage: TokenUsage | WithinTokenLimits(usage, promptSize, maxOutputTokens)
        ensures RequestCost(price, usage) <= WorstCaseCost(price, promptSize, maxOutputTokens)
      {
        PlainInputCostsMost(price, usage, prompt, maxOutputTokens);
      }
    } else {
      var allWritten := TokenUsage(0, maxOutputTokens, prompt, 0);
      var bound := WorstCaseUsage(promptSize, maxOutputTokens);
      assert WithinTokenLimits(allWritten, promptSize, maxOutputTokens);
      var m := Multiplier(price, prompt);
      var extra := prompt as real * (price.cacheWrite - price.input);
      ProductsAreMonotone(1.0, prompt as real, price.cacheWrite - price.input, price.cacheWrite - price.input);
      assert FlatCost(price, allWritten) == FlatCost(price, bound) + extra;
      assert m * FlatCost(price, allWritten) == m * FlatCost(price, bound) + m * extra;
      assert m * extra >= 1.0 * extra;
    }
  }

  /** The price list of the agent. */
  const MODEL_PRICES: map<string, ModelPrice> := map[
    "claude-haiku-5-5" := HAIKU,
    "claude-sonnet-5-5" := ModelPrice(2.0, 10.0, 2.5, 0.1, 1.0),
    "claude-opus-5-5" := ModelPrice(4.0, 20.0, 5.0, 0.2, 1.0),
    "claude-opus-4-8" := ModelPrice(5.0, 25.0, 6.25, 0.5, 1.0)]

  const HAIKU := ModelPrice(0.1, 0.5, 0.125, 0.01, 5.0)

  /** Every listed price is sane, so the bounds hold for it, and none covers a prompt written to the cache. */
  lemma NoListedPriceCoversCacheWrites(name: string, promptSize: nat, maxOutputTokens: nat)
    requires name in MODEL_PRICES
    ensures SanePrice(MODEL_PRICES[name]) && !BoundsEveryUsage(MODEL_PRICES[name], promptSize, maxOutputTokens)
  {
    var price := MODEL_PRICES[name];
    assert SanePrice(price) && price.cacheWrite > price.input;
    WorstCaseBoundsEveryUsageIff(price, promptSize, maxOutputTokens);
  }

  /** One such usage: an empty turn reserves for 2,000 tokens, which cost a quarter more when they are all written. */
  lemma ACacheWriteExceedsItsReservation()
    ensures var usage := TokenUsage(0, 0, 2_000, 0);
      && WithinTokenLimits(usage, 0, 0)
      && WorstCaseCost(HAIKU, 0, 0) == 0.0002 && RequestCost(HAIKU, usage) == 0.00025
  {
  }

  // -- one question ----------------------------------------------------------

  function TotalCost(price: ModelPrice, usages: seq<TokenUsage>): real {
    if usages == [] then 0.0
    else TotalCost(price, usages[..|usages| - 1]) + RequestCost(price, usages[|usages| - 1])
  }

  /** Turn `i` may report its own prompt and a full output for each of the `i` turns before it. */
  ghost predicate TurnsWithinLimits(usages: seq<TokenUsage>, maxPromptChars: nat, maxOutputTokens: nat) {
    forall i :: 0 <= i < |usages| ==>
      && usages[i].cacheCreation == 0
      && WithinTokenLimits(usages[i], TurnPrompt(maxPromptChars, maxOutputTokens, i), maxOutputTokens)
  }

  /** Whatever the turns report, a question costs at most its published worst case. */
  lemma {:induction false} QuestionCostIsBounded(
      price: ModelPrice, usages: seq<TokenUsage>, maxPromptChars: nat, maxOutputTokens: nat, turns: nat)
    requires SanePrice(price)
    requires |usages| <= turns
    requires TurnsWithinLimits(usages, maxPromptChars, maxOutputTokens)
    ensures TotalCost(price, usages) <= QuestionWorstCase(price, maxPromptChars, maxOutputTokens, turns)
    decreases turns
  {
    if turns == 0 {
      assert usages == [];
    } else {
      var prompt := TurnPrompt(maxPromptChars, maxOutputTokens, turns - 1);
      if |usages| == turns {
        var earlier := usages[..turns - 1];
        assert forall i :: 0 <= i < |earlier| ==> earlier[i] == usages[i];
        WorstCaseBoundsRequest(price, usages[turns - 1], prompt, maxOutputTokens);
        QuestionCostIsBounded(price, earlier, maxPromptChars, maxOutputTokens, turns - 1);
      } else {
        WorstCaseBoundsRequest(price, TokenUsage(0, 0, 0, 0), prompt, maxOutputTokens);
        QuestionCostIsBounded(price, usages, maxPromptChars, maxOutputTokens, turns - 1);
      }
    }
  }

  /** The dearest turns there can be: every prompt full, and every turn before resent with a full output. */
  function FullTurns(maxPromptChars: nat, maxOutputTokens: nat, turns: nat): (usages: seq<TokenUsage>)
    ensures |usages| == turns
    ensures forall i :: 0 <= i < turns ==>
      usages[i] == TokenUsage(maxPromptChars + i * maxOutputTokens + 2_000, maxOutputTokens, 0, 0)
  {
    seq(turns, (i: nat) => TokenUsage(maxPromptChars + i * maxOutputTokens + 2_000, maxOutputTokens, 0, 0))
  }

  /** The published worst case is no more than it must be: a question of full turns costs exactly that. */
  lemma {:induction false} TheWorstCaseIsReached(
      price: ModelPrice, maxPromptChars: nat, maxOutputTokens: nat, turns: nat)
    ensures var usages := FullTurns(maxPromptChars, maxOutputTokens, turns);
      && TurnsWithinLimits(usages, maxPromptChars, maxOutputTokens)
      && TotalCost(price, usages) == QuestionWorstCase(price, maxPromptChars, maxOutputTokens, turns)
  {
    if turns > 0 {
      var usages := FullTurns(maxPromptChars, maxOutputTokens, turns);
      TheWorstCaseIsReached(price, maxPromptChars, maxOutputTokens, turns - 1);
      assert usages[..turns - 1] == FullTurns(maxPromptChars, maxOutputTokens, turns - 1);
      assert usages[turns - 1] ==
        WorstCaseUsage(TurnPrompt(maxPromptChars, maxOutputTokens, turns - 1), maxOutputTokens);
    }
  }

  /** What a request costs under each listed price: only the first one has a surcharge for long prompts. */
  lemma ListedPricesChargeAsPublished(usage: TokenUsage)
    ensures MODEL_PRICES.Keys == {"claude-haiku-5-5", "claude-sonnet-5-5", "claude-opus-5-5", "claude-opus-4-8"}
    ensures var long := usage.input + usage.cacheCreation + usage.cacheRead > 100_000;
      1000000.0 * RequestCost(MODEL_PRICES["claude-haiku-5-5"], usage) ==
        (0.1 * usage.input as real + 0.5 * usage.output as real + 0.125 * usage.cacheCreation as real
         + 0.01 * usage.cacheRead as real) * (if long then 5.0 else 1.0)
    ensures 1000000.0 * RequestCost(MODEL_PRICES["claude-sonnet-5-5"], usage) ==
      2.0 * usage.input as real + 10.0 * usage.output as real + 2.5 * usage.cacheCreation as real
      + 0.1 * usage.cacheRead as real
    ensures 1000000.0 * RequestCost(MODEL_PRICES["claude-opus-5-5"], usage) ==
      4.0 * usage.input as real + 20.0 * usage.output as real + 5.0 * usage.cacheCreation as real
      + 0.2 * usage.cacheRead as real
    ensures 1000000.0 * RequestCost(MODEL_PRICES["claude-opus-4-8"], usage) ==
      5.0 * usage.input as real + 25.0 * usage.output as real + 6.25 * usage.cacheCreation as real
      + 0.5 * usage.cacheRead as real
  {
  }
}
