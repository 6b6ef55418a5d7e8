/**
 * `DefaultOptionalDataProvider`: the five accessors for the optional data
 * blocks, each guarded to A-shares and wrapping a truthy fetch result.
 */
module OptionalData {
  import opened Wrappers
  import opened Values
  import opened Frames
  import opened Markets

  /** Which optional block: quarterly reports, fund flow, market sentiment, news, or risk. */
  datatype Kind = Quarterly | FundFlow | Sentiment | News | Risk

  /** What one accessor gives (the wrapped data, or `None`) and whether it called its fetcher. */
  datatype Access = Access(data: Option<Value>, called: bool)

  /**
   * One accessor. `fetch` is the fetcher's answer for the kind and symbol
   * (the sentiment fetcher also sees the history). Non-A-share symbols, and a
   * sentiment request without history, give `None` without a fetch; a falsy
   * answer gives `None`; otherwise the answer is wrapped unchanged. The
   * fetcher is called at most once.
   */
  function Accessor(kind: Kind, symbol: string, stockData: Option<Frame>,
                    fetch: (Kind, string, Option<Frame>) -> Value): (a: Access)
    ensures !IsChineseStock(symbol) ==> a == Access(None, false)
    ensures kind == Sentiment && stockData.None? ==> a == Access(None, false)
    ensures a.called <==> IsChineseStock(symbol) && (kind == Sentiment ==> stockData.Some?)
    ensures a.data.Some? <==> a.called && Truthy(fetch(kind, symbol, stockData))
    ensures a.data.Some? ==> a.data.value == fetch(kind, symbol, stockData)
  {
    if !IsChineseStock(symbol) then Access(None, false)
    else if kind == Sentiment && stockData.None? then Access(None, false)
    else
      var data := fetch(kind, symbol, stockData);
      Access(if Truthy(data) then Some(data) else None, true)
  }
}
