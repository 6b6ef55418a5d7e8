/** The data handed to the analysts for one stock (`StockDataBundle`). */
module Bundles {
  import opened Wrappers
  import opened Values
  import opened Frames

  /**
   * `stock_info` is the raw information dictionary; each optional block
   * (`QuarterlyData`, `FundFlowData`, ...) is `Some(data)` when present, its
   * `data` field being whatever the fetcher returned.
   */
  datatype DataBundle = DataBundle(
    stockInfo: Dict,
    stockData: Option<Frame>,
    indicators: Option<Dict>,
    financialData: Value,
    fundFlowData: Option<Value>,
    sentimentData: Option<Value>,
    newsData: Option<Value>,
    quarterlyData: Option<Value>,
    riskData: Option<Value>)

  /** `bundle.indicators or {}` */
  function IndicatorsOrEmpty(b: DataBundle): Dict
  {
    if b.indicators.Some? then b.indicators.value else map[]
  }

  /** The block is present and its data is a dictionary whose `data_success` is truthy. */
  predicate Successful(block: Option<Value>)
  {
    block.Some? && DictFlag(block.value, "data_success")
  }
}
