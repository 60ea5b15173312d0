/**
 What one call costs. A price of p US dollars per million tokens is
 p micro-dollars per token; prices have at most three decimals, so they are kept in
 thousandths of a micro-dollar per token, and costs in micro-dollars.
 */
module Pricing {
  import opened StreamAssembly

  datatype ModelPricing = ModelPricing(input: nat, output: nat, cacheRead: nat, cacheWrite: nat)

  const PRICING: map<string, ModelPricing> := map[
    "claude-sonnet-4-6" := ModelPricing(3000, 15000, 300, 3750),
    "claude-haiku-4-5" := ModelPricing(1000, 5000, 100, 1250),
    "claude-opus-4-8" := ModelPricing(5000, 25000, 500, 6250),
    "voyage-3.5" := ModelPricing(60, 0, 0, 0),
    "gpt-5.1" := ModelPricing(1250, 10000, 125, 0),
    "gpt-5.1-mini" := ModelPricing(250, 2000, 25, 0),
    "text-embedding-3-small" := ModelPricing(20, 0, 0, 0),
    "gemini-3-pro-preview" := ModelPricing(2000, 12000, 200, 0),
    "gemini-2.5-pro" := ModelPricing(1250, 10000, 125, 0),
    "gemini-2.5-flash" := ModelPricing(300, 2500, 30, 0),
    "gemini-embedding-001" := ModelPricing(150, 0, 0, 0),
    "mistral-large-latest" := ModelPricing(2000, 6000, 0, 0),
    "mistral-medium-latest" := ModelPricing(400, 2000, 0, 0),
    "mistral-small-latest" := ModelPricing(100, 300, 0, 0),
    "mistral-embed" := ModelPricing(100, 0, 0, 0),
    "grok-4" := ModelPricing(3000, 15000, 750, 0),
    "grok-4-fast" := ModelPricing(200, 500, 50, 0),
    "deepseek-chat" := ModelPricing(280, 420, 28, 0),
    "deepseek-reasoner" := ModelPricing(280, 420, 28, 0),
    "llama-3.3-70b-versatile" := ModelPricing(590, 790, 0, 0),
    "llama-3.1-8b-instant" := ModelPricing(50, 80, 0, 0),
    "embed-v4.0" := ModelPricing(120, 0, 0, 0)
  ]

  /** The price of the tokens, exactly, in thousandths of a micro-dollar. */
  function Exact(p: ModelPricing, u: Usage): int {
    u.input * p.input + u.output * p.output + u.cacheRead * p.cacheRead + u.cacheWrite * p.cacheWrite
  }

  /** `quantize` to a whole number of thousands: the nearest one, and of two equally near ones the even
      one (section 4.3.1 of IEEE 754-2008). */
  function HalfEven(x: int): (n: int)
    ensures -500 <= 1000 * n - x <= 500
    ensures 1000 * n - x == 500 || 1000 * n - x == -500 ==> n % 2 == 0
  {
    var q, r := x / 1000, x % 1000;
    if r < 500 || (r == 500 && q % 2 == 0) then q else q + 1
  }

  /** `cost_for`, in micro-dollars; a model without a price costs nothing. */
  function CostFor(pricing: map<string, ModelPricing>, model: string, u: Usage): int {
    if model in pricing then HalfEven(Exact(pricing[model], u)) else 0
  }

  // The price list, in thousandths of a US dollar per million tokens.

  ghost predicate PerMillion(pricing: map<string, ModelPricing>, model: string, input: int, output: int, cacheRead: int,
                             cacheWrite: int) {
    && CostFor(pricing, model, Usage(1_000_000, 0, 0, 0)) == 1000 * input
    && CostFor(pricing, model, Usage(0, 1_000_000, 0, 0)) == 1000 * output
    && CostFor(pricing, model, Usage(0, 0, 1_000_000, 0)) == 1000 * cacheRead
    && CostFor(pricing, model, Usage(0, 0, 0, 1_000_000)) == 1000 * cacheWrite
  }

  /** Entries of the table are what a million tokens of each kind cost. */
  lemma CostsAsPriced(pricing: map<string, ModelPricing>, model: string, p: ModelPricing)
    requires model in pricing && pricing[model] == p
    ensures PerMillion(pricing, model, p.input, p.output, p.cacheRead, p.cacheWrite)
  {
  }

  lemma ClaudePrices()
    ensures "claude-sonnet-4-6" in PRICING && PRICING["claude-sonnet-4-6"] == ModelPricing(3000, 15000, 300, 3750)
    ensures "claude-haiku-4-5" in PRICING && PRICING["claude-haiku-4-5"] == ModelPricing(1000, 5000, 100, 1250)
    ensures "claude-opus-4-8" in PRICING && PRICING["claude-opus-4-8"] == ModelPricing(5000, 25000, 500, 6250)
  {
  }

  lemma OpenAiPrices()
    ensures "gpt-5.1" in PRICING && PRICING["gpt-5.1"] == ModelPricing(1250, 10000, 125, 0)
    ensures "gpt-5.1-mini" in PRICING && PRICING["gpt-5.1-mini"] == ModelPricing(250, 2000, 25, 0)
    ensures "text-embedding-3-small" in PRICING && PRICING["text-embedding-3-small"] == ModelPricing(20, 0, 0, 0)
  {
  }

  lemma GeminiPrices()
    ensures "gemini-3-pro-preview" in PRICING && PRICING["gemini-3-pro-preview"] == ModelPricing(2000, 12000, 200, 0)
    ensures "gemini-2.5-pro" in PRICING && PRICING["gemini-2.5-pro"] == ModelPricing(1250, 10000, 125, 0)
    ensures "gemini-2.5-flash" in PRICING && PRICING["gemini-2.5-flash"] == ModelPricing(300, 2500, 30, 0)
    ensures "gemini-embedding-001" in PRICING && PRICING["gemini-embedding-001"] == ModelPricing(150, 0, 0, 0)
  {
  }

  lemma MistralPrices()
    ensures "mistral-large-latest" in PRICING && PRICING["mistral-large-latest"] == ModelPricing(2000, 6000, 0, 0)
    ensures "mistral-medium-latest" in PRICING && PRICING["mistral-medium-latest"] == ModelPricing(400, 2000, 0, 0)
    ensures "mistral-small-latest" in PRICING && PRICING["mistral-small-latest"] == ModelPricing(100, 300, 0, 0)
    ensures "mistral-embed" in PRICING && PRICING["mistral-embed"] == ModelPricing(100, 0, 0, 0)
  {
  }

  lemma GrokAndDeepSeekPrices()
    ensures "grok-4" in PRICING && PRICING["grok-4"] == ModelPricing(3000, 15000, 750, 0)
    ensures "grok-4-fast" in PRICING && PRICING["grok-4-fast"] == ModelPricing(200, 500, 50, 0)
    ensures "deepseek-chat" in PRICING && PRICING["deepseek-chat"] == ModelPricing(280, 420, 28, 0)
    ensures "deepseek-reasoner" in PRICING && PRICING["deepseek-reasoner"] == ModelPricing(280, 420, 28, 0)
  {
  }

  lemma OtherPrices()
    ensures "voyage-3.5" in PRICING && PRICING["voyage-3.5"] == ModelPricing(60, 0, 0, 0)
    ensures "llama-3.3-70b-versatile" in PRICING && PRICING["llama-3.3-70b-versatile"] == ModelPricing(590, 790, 0, 0)
    ensures "llama-3.1-8b-instant" in PRICING && PRICING["llama-3.1-8b-instant"] == ModelPricing(50, 80, 0, 0)
    ensures "embed-v4.0" in PRICING && PRICING["embed-v4.0"] == ModelPricing(120, 0, 0, 0)
  {
  }

  /** Where writing to a cache costs extra, it costs five quarters of the input price, and reading from it a tenth. */
  lemma CacheRates(model: string)
    requires model in PRICING && PRICING[model].cacheWrite != 0
    ensures var p := PRICING[model]; 4 * p.cacheWrite == 5 * p.input && 10 * p.cacheRead == p.input
  {
  }

  /** Whatever the usage, the cost is the nearest micro-dollar to what its tokens cost at the prices per token. */
  lemma CostNearPrice(pricing: map<string, ModelPricing>, model: string, u: Usage)
    requires model in pricing
    ensures var p := pricing[model];
            -500 <= 1000 * CostFor(pricing, model, u) -
                    (u.input * p.input + u.output * p.output + u.cacheRead * p.cacheRead + u.cacheWrite * p.cacheWrite) <= 500
  {
  }

  lemma HalfEvenMonotone(x: int, y: int)
    requires x <= y
    ensures HalfEven(x) <= HalfEven(y)
  {
  }

  ghost predicate NoMoreThan(u: Usage, v: Usage) {
    u.input <= v.input && u.output <= v.output && u.cacheRead <= v.cacheRead && u.cacheWrite <= v.cacheWrite
  }

  lemma ExactMonotone(p: ModelPricing, u: Usage, v: Usage)
    requires NoMoreThan(u, v)
    ensures Exact(p, u) <= Exact(p, v)
  {
    Scaled(u.input, v.input, p.input);
    Scaled(u.output, v.output, p.output);
    Scaled(u.cacheRead, v.cacheRead, p.cacheRead);
    Scaled(u.cacheWrite, v.cacheWrite, p.cacheWrite);
  }

  lemma Scaled(a: int, b: int, p: nat)
    requires a <= b
    ensures a * p <= b * p
  {
    assert (b - a) * p >= 0;
  }

  /** More tokens never cost less. */
  lemma CostMonotone(pricing: map<string, ModelPricing>, model: string, u: Usage, v: Usage)
    requires NoMoreThan(u, v)
    ensures CostFor(pricing, model, u) <= CostFor(pricing, model, v)
  {
    if model in pricing {
      ExactMonotone(pricing[model], u, v);
      HalfEvenMonotone(Exact(pricing[model], u), Exact(pricing[model], v));
    }
  }

  function Plus(u: Usage, v: Usage): Usage {
    Usage(u.input + v.input, u.output + v.output, u.cacheRead + v.cacheRead, u.cacheWrite + v.cacheWrite)
  }

  function TotalUsage(us: seq<Usage>): Usage {
    if us == [] then NO_USAGE else Plus(us[0], TotalUsage(us[1..]))
  }

  function SumOfCosts(pricing: map<string, ModelPricing>, model: string, us: seq<Usage>): int {
    if us == [] then 0 else CostFor(pricing, model, us[0]) + SumOfCosts(pricing, model, us[1..])
  }

  lemma ExactPlus(p: ModelPricing, u: Usage, v: Usage)
    ensures Exact(p, Plus(u, v)) == Exact(p, u) + Exact(p, v)
  {
    Distribute(u.input, v.input, p.input);
    Distribute(u.output, v.output, p.output);
    Distribute(u.cacheRead, v.cacheRead, p.cacheRead);
    Distribute(u.cacheWrite, v.cacheWrite, p.cacheWrite);
  }

  lemma Distribute(a: int, b: int, p: nat)
    ensures (a + b) * p == a * p + b * p
  {
  }

  /** Rounding row by row: n rows of one model differ from the cost of their summed usage by at most
      (n + 1) / 2 micro-dollars. */
  lemma RowsAddUp(pricing: map<string, ModelPricing>, model: string, us: seq<Usage>)
    ensures var gap := SumOfCosts(pricing, model, us) - CostFor(pricing, model, TotalUsage(us));
            -(|us| + 1) <= 2 * gap <= |us| + 1
  {
    if model in pricing {
      RowsNearExact(pricing, model, us);
    } else {
      FreeRows(pricing, model, us);
    }
  }

  lemma {:induction false} FreeRows(pricing: map<string, ModelPricing>, model: string, us: seq<Usage>)
    requires model !in pricing
    ensures SumOfCosts(pricing, model, us) == 0
  {
    if us != [] {
      FreeRows(pricing, model, us[1..]);
    }
  }

  lemma {:induction false} RowsNearExact(pricing: map<string, ModelPricing>, model: string, us: seq<Usage>)
    requires model in pricing
    ensures var gap := 1000 * SumOfCosts(pricing, model, us) - Exact(pricing[model], TotalUsage(us));
            -500 * |us| <= gap <= 500 * |us|
  {
    var p := pricing[model];
    if us == [] {
    } else {
      RowsNearExact(pricing, model, us[1..]);
      ExactPlus(p, us[0], TotalUsage(us[1..]));
    }
  }
}
