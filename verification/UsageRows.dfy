/**
 The rows of the usage table, one for each call of a provider.
 */
module UsageRows {
  import opened StreamAssembly
  import opened Pricing

  datatype CallStatus = Ok | Error | Disconnected

  datatype Row = Row(feature: string, model: string, status: CallStatus, usage: Usage)

  /** The model in the rows of calls that failed or were cut short. */
  const UNKNOWN := "unknown"

  /** The `cost_usd` of a row, in micro-dollars. */
  function Cost(row: Row): int {
    CostFor(PRICING, row.model, row.usage)
  }

  /** The price of the row's usage without rounding, in thousandths of a micro-dollar. */
  function ExactCost(row: Row): int {
    if row.model in PRICING then Exact(PRICING[row.model], row.usage) else 0
  }

  lemma CostNearExact(row: Row)
    ensures -500 <= 1000 * Cost(row) - ExactCost(row) <= 500
    ensures row.model !in PRICING ==> Cost(row) == 0 && ExactCost(row) == 0
  {
  }

  lemma UnknownIsFree(row: Row)
    requires row.model == UNKNOWN
    ensures Cost(row) == 0 && row.model !in PRICING
  {
    assert UNKNOWN !in PRICING;
  }

  /** `record_embedding`. */
  function EmbeddingRow(model: string, tokens: int): Row {
    Row("ingestion", model, Ok, Usage(tokens, 0, 0, 0))
  }
}
