/** The pricing table of `UsageTracker.calculateCost`: a fixed per-token USD
    rate for each (provider, model, request type), with permissive fallbacks. */
module Pricing {
  import opened Common

  /** Per-token USD rates of one model. */
  datatype Rates = Rates(input: real, output: real)

  /** The flat per-token rate charged for a (provider, model) pair the table
      does not list, whatever the request type. */
  const DefaultRate: real := 0.001 / 1000.0

  /** `pricing[provider]?.[model]`: the rates of a listed model. */
  function ModelRates(provider: string, model: string): Option<Rates>
  {
    if provider == "openai" then
      if model == "gpt-3.5-turbo" then Some(Rates(0.0015 / 1000.0, 0.002 / 1000.0))
      else if model == "gpt-4" then Some(Rates(0.03 / 1000.0, 0.06 / 1000.0))
      else None
    else if provider == "gemini" then
      if model == "gemini-pro" then Some(Rates(0.000125 / 1000.0, 0.000375 / 1000.0))
      else if model == "gemini-pro-vision" then Some(Rates(0.00025 / 1000.0, 0.00075 / 1000.0))
      else None
    else None
  }

  /** `modelPricing[requestType]`: the rate listed under a request type, if any. */
  function ListedRate(rates: Rates, requestType: string): Option<real>
  {
    if requestType == "input" then Some(rates.input)
    else if requestType == "output" then Some(rates.output)
    else None
  }

  /** `modelPricing[requestType] || modelPricing.input`: an unlisted (or zero)
      rate falls back to the model's input rate. */
  function RateFor(rates: Rates, requestType: string): real
  {
    match ListedRate(rates, requestType)
    case Some(r) => if r != 0.0 then r else rates.input
    case None => rates.input
  }

  /** The cost in USD of `tokens` tokens of one request. */
  function CalculateCost(provider: string, model: string, tokens: int, requestType: string): (cost: real)
    ensures ModelRates(provider, model).None? ==> cost == tokens as real * DefaultRate
    ensures ModelRates(provider, model).Some? && requestType == "output" ==>
              cost == tokens as real * ModelRates(provider, model).value.output
    ensures ModelRates(provider, model).Some? && requestType != "output" ==>
              cost == tokens as real * ModelRates(provider, model).value.input
  {
    match ModelRates(provider, model)
    case None => tokens as real * 0.001 / 1000.0
    case Some(rates) => tokens as real * RateFor(rates, requestType)
  }

  /** Every listed model charges a positive input rate and at least as much
      for output as for input. */
  lemma OutputRateAtLeastInput(provider: string, model: string)
    requires ModelRates(provider, model).Some?
    ensures 0.0 < ModelRates(provider, model).value.input <= ModelRates(provider, model).value.output
  {
  }

  /** A non-negative token count never costs a negative amount. */
  lemma CostNonNegative(provider: string, model: string, tokens: int, requestType: string)
    requires tokens >= 0
    ensures CalculateCost(provider, model, tokens, requestType) >= 0.0
  {
    if ModelRates(provider, model).Some? {
      OutputRateAtLeastInput(provider, model);
    }
  }

  /** Cost is additive in the token count, so doubling the tokens doubles the cost. */
  lemma CostLinear(provider: string, model: string, t1: int, t2: int, requestType: string)
    ensures CalculateCost(provider, model, t1 + t2, requestType)
         == CalculateCost(provider, model, t1, requestType) + CalculateCost(provider, model, t2, requestType)
    ensures CalculateCost(provider, model, 2 * t1, requestType) == 2.0 * CalculateCost(provider, model, t1, requestType)
  {
  }

  /** 1000 input tokens of gpt-3.5-turbo cost $0.0015. */
  lemma GptTurboThousandInputTokens()
    ensures CalculateCost("openai", "gpt-3.5-turbo", 1000, "input") == 0.0015
  {
  }
}
