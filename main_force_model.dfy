/**
 * The main-force stock selection's domain records: a candidate stock, a final
 * recommendation and the analysis aggregate the use case fills in.
 */
module MainForceModel {
  import opened Wrappers
  import opened Values

  /**
   * `MainForceStock`. The scores keep the column order they were read in;
   * `rawData` is the stock's table row as a dictionary.
   */
  datatype Stock = Stock(
    symbol: string, name: string, industry: string,
    marketCap: real, rangeChange: real, mainFundInflow: real,
    peRatio: Option<real>, pbRatio: Option<real>,
    revenue: Option<string>, netProfit: Option<string>,
    scores: seq<(string, Value)>, rawData: Dict)

  /**
   * `MainForceRecommendation`. The fields come from the model's JSON as they
   * are (Python does not enforce the annotations), so they are values.
   */
  datatype Recommendation = Recommendation(
    rank: Value, symbol: Value, name: Value, reasons: Value,
    highlights: Value, risks: Value, position: Value, investmentPeriod: Value,
    stockData: Dict)

  /** `MainForceAnalysis`; the analysis date and the run time are the caller's clock readings. */
  datatype Analysis = Analysis(
    id: Option<int>, params: Dict,
    rawStocks: seq<Stock>, filteredStocks: seq<Stock>,
    fundFlowAnalysis: Option<string>, industryAnalysis: Option<string>, fundamentalAnalysis: Option<string>,
    recommendations: seq<Recommendation>,
    totalTime: real, success: bool, error: Option<string>)

  /** `MainForceAnalysis(params=params)`: everything else at its default. */
  function NewAnalysis(params: Dict): (a: Analysis)
    ensures a.params == params && a.id.None? && a.rawStocks == [] && a.filteredStocks == []
    ensures a.recommendations == [] && !a.success && a.error.None? && a.totalTime == 0.0
  {
    Analysis(None, params, [], [], None, None, None, [], 0.0, false, None)
  }
}
