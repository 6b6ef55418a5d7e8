/**
 * The web services' uncached fetchers: the stock-data bundle, which drops
 * both history and indicators when the history fetch reports an error, and
 * the five optional fetchers, which answer nothing for symbols that are
 * not A-shares. The fetchers themselves are parameters.
 */
module AnalysisService {
  import opened Wrappers
  import opened Values
  import opened Frames
  import opened Markets
  import opened OptionalData
  import opened Strings
  import Indicators

  /** `check_api_key`: the DeepSeek key is configured when it is present and not blank. */
  function ApiKeyConfigured(cfg: map<string, string>): (ok: bool)
    ensures ok <==> "DEEPSEEK_API_KEY" in cfg && !IsBlank(cfg["DEEPSEEK_API_KEY"])
  {
    var key := if "DEEPSEEK_API_KEY" in cfg then cfg["DEEPSEEK_API_KEY"] else "";
    StripSpec(key);
    Strip(key) != ""
  }

  /** The web layer's `StockDataBundle`: info, history and indicator snapshot. */
  datatype ServiceBundle = ServiceBundle(stockInfo: Dict, stockData: Option<Frame>, indicators: Option<Dict>)

  /**
   * `get_stock_data_uncached`: a history error gives neither history nor
   * indicators; otherwise the history with its indicator columns, and the
   * snapshot of that frame. `indicate` and `latest` are the fetcher's
   * computations.
   */
  function StockDataUncached(info: Dict, raw: Indicators.Fetched, indicate: Frame -> Frame, latest: Frame -> Dict): (b: ServiceBundle)
    ensures b.stockInfo == info
    ensures raw.Failed? <==> b.stockData.None?
    ensures raw.Failed? ==> b.indicators.None?
    ensures raw.Table? ==> b.stockData == Some(indicate(raw.frame)) && b.indicators == Some(latest(indicate(raw.frame)))
  {
    match raw
    case Failed(_) => ServiceBundle(info, None, None)
    case Table(f) =>
      var g := indicate(f);
      ServiceBundle(info, Some(g), Some(latest(g)))
  }

  /**
   * On a history error the web service drops the error, where the providers'
   * bundle keeps it as the indicators; on success both keep the computed
   * history.
   */
  lemma ServiceDropsError(info: Dict, raw: Indicators.Fetched, indicate: Frame -> Frame, latest: Frame -> Dict,
                          providerIndicate: Frame -> Indicators.Fetched, snapshot: Frame -> Result<Dict>)
    requires forall f :: providerIndicate(f) == Indicators.Table(indicate(f))
    ensures raw.Failed? ==>
      && StockDataUncached(info, raw, indicate, latest).indicators.None?
      && Indicators.ComposeBundle(info, raw, providerIndicate, snapshot).indicators == Some(Indicators.ErrorDict(raw.error))
    ensures StockDataUncached(info, raw, indicate, latest).stockData
         == Indicators.ComposeBundle(info, raw, providerIndicate, snapshot).stockData
  {
  }

  /**
   * One of the `get_*_data_uncached` optional fetchers: nothing for a symbol
   * that is not an A-share, nothing for sentiment without history, and
   * otherwise the fetcher's answer as it is, falsy or not.
   */
  function OptionalUncached(kind: Kind, symbol: string, stockData: Option<Frame>,
                            fetch: (Kind, string, Option<Frame>) -> Value): (r: Option<Value>)
    ensures !IsChineseStock(symbol) ==> r.None?
    ensures kind == Sentiment && stockData.None? ==> r.None?
    ensures r.Some? <==> IsChineseStock(symbol) && (kind == Sentiment ==> stockData.Some?)
    ensures r.Some? ==> r.value == fetch(kind, symbol, stockData)
  {
    if !IsChineseStock(symbol) then None
    else if kind == Sentiment && stockData.None? then None
    else Some(fetch(kind, symbol, stockData))
  }

  /**
   * The optional-data provider of the new architecture is the web fetcher
   * with falsy answers dropped: it calls the fetcher exactly when the web
   * fetcher does, and keeps its answer exactly when that answer is truthy.
   */
  lemma ProviderFiltersService(kind: Kind, symbol: string, stockData: Option<Frame>,
                               fetch: (Kind, string, Option<Frame>) -> Value)
    ensures Accessor(kind, symbol, stockData, fetch).called <==> OptionalUncached(kind, symbol, stockData, fetch).Some?
    ensures var s := OptionalUncached(kind, symbol, stockData, fetch);
      Accessor(kind, symbol, stockData, fetch).data == if s.Some? && Truthy(s.value) then s else None
  {
  }
}
