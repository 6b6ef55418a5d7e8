/**
 * The six analysts (`TechnicalAgent` ... `NewsAgent`): each fills its prompt
 * template from the stock information and the data bundle, makes one gateway
 * call with its own system prompt, and wraps the reply as an `AgentReview`.
 * The fetchers' formatting of quarterly, fund-flow, sentiment, news and risk
 * data is named in the prompt (`Arg.Fetched`), not rendered; like the
 * templates' wording, the fixed heading and note around each block are not
 * part of the model.
 */
module Agents {
  import opened Wrappers
  import opened Strings
  import opened Values
  import opened AnalysisModel
  import opened Llm
  import opened Bundles

  function AgentName(role: AgentRole): string
  {
    match role
    case Technical => "技术分析师"
    case Fundamental => "基本面分析师"
    case FundFlow => "资金面分析师"
    case RiskManagement => "风险管理师"
    case MarketSentiment => "市场情绪分析师"
    case NewsAnalyst => "新闻分析师"
  }

  function FocusPoints(role: AgentRole): seq<string>
  {
    match role
    case Technical => ["技术指标", "趋势分析", "支撑阻力", "交易信号"]
    case Fundamental => ["财务指标", "行业分析", "公司价值", "成长性", "季报趋势"]
    case FundFlow => ["资金流向", "主力动向", "市场情绪", "流动性"]
    case RiskManagement => ["风险识别", "风险量化", "风险控制", "资产配置"]
    case MarketSentiment => ["ARBR指标", "市场情绪", "投资者心理"]
    case NewsAnalyst => ["舆情分析", "新闻事件", "股价影响"]
  }

  function SystemPrompt(role: AgentRole): string
  {
    match role
    case Technical => "你是一名经验丰富的股票技术分析师，具有深厚的技术分析功底。"
    case Fundamental => "你是一名资深的基本面分析师，擅长通过财务数据挖掘公司价值。"
    case FundFlow => "你是一名资深的资金面分析师，擅长从资金流向数据中洞察主力行为和市场趋势。"
    case RiskManagement => "你是一名资深的风险管理专家，具有20年以上的风险识别和控制经验，擅长全面评估各类投资风险。"
    case MarketSentiment => "你是一名专业的市场情绪分析师，擅长解读市场心理和投资者行为，善于利用ARBR等情绪指标进行分析。"
    case NewsAnalyst => "你是一名专业的新闻分析师，擅长解读新闻事件、舆情分析，评估新闻对股价的影响。"
  }

  function TemplateName(role: AgentRole): string
  {
    match role
    case Technical => "TECHNICAL_ANALYSIS_PROMPT"
    case Fundamental => "FUNDAMENTAL_ANALYSIS_PROMPT"
    case FundFlow => "FUND_FLOW_ANALYSIS_PROMPT"
    case RiskManagement => "RISK_MANAGEMENT_PROMPT"
    case MarketSentiment => "MARKET_SENTIMENT_PROMPT"
    case NewsAnalyst => "NEWS_ANALYSIS_PROMPT"
  }

  /** A list of strings as a Python value. */
  function StrList(xs: seq<string>): (v: Value)
    ensures v.VList? && |v.items| == |xs|
    ensures forall i | 0 <= i < |xs| :: v.items[i] == VStr(xs[i])
  {
    VList(seq(|xs|, i requires 0 <= i < |xs| => VStr(xs[i])))
  }

  /** The review summary: the whole reply when it has at most 200 characters, else its first 200 and "...". */
  function Summary(content: string): (s: string)
    ensures |content| <= 200 ==> s == content
    ensures |content| > 200 ==> |s| == 203 && s[..200] == content[..200] && s[200..] == "..."
  {
    if |content| > 200 then content[..200] + "..." else content
  }

  /** `_create_review_result` (the clock reading is the `AgentReview` default timestamp). */
  function ReviewResult(role: AgentRole, content: string, now: Time): AgentReview
  {
    AgentReview(role, AnalysisContent(VStr(Summary(content)), map["full_content" := VStr(content)],
                                      StrList(FocusPoints(role)), VStr(content)), now, AgentName(role))
  }

  // ---- the fundamental analyst's financial-ratio section ----

  const PriceEarnings := "市盈率"
  const PriceBook := "市净率"
  const TotalMarketCap := "总市值"
  const CirculatingMarketCap := "流通市值"
  const KeyMetrics: seq<string> := [PriceEarnings, PriceBook, TotalMarketCap, CirculatingMarketCap, "每股收益", "每股净资产"]
  const ProfitMetrics: seq<string> := ["净资产收益率", "总资产净利率", "毛利率", "净利率"]
  const GrowthMetrics: seq<string> := ["营业收入同比增长", "净利润同比增长"]

  function MetricLine(key: string, ratios: Dict): string
    requires key in ratios
  {
    "- " + key + ": " + Str(ratios[key])
  }

  /** `line` is the line of one of `keys` that the ratios hold. */
  predicate IsMetricLine(line: string, keys: seq<string>, ratios: Dict)
  {
    exists k | k in keys && k in ratios :: line == MetricLine(k, ratios)
  }

  /** One line per listed metric the ratios hold, in list order. */
  function MetricLines(keys: seq<string>, ratios: Dict): seq<string>
  {
    if keys == [] then []
    else
      MetricLines(keys[..|keys| - 1], ratios)
      + (if keys[|keys| - 1] in ratios then [MetricLine(keys[|keys| - 1], ratios)] else [])
  }

  /** Every line is a listed metric's, every listed metric the ratios hold has its line, and there is none for a missing one. */
  lemma {:induction false} MetricLinesSpec(keys: seq<string>, ratios: Dict)
    ensures |MetricLines(keys, ratios)| <= |keys|
    ensures forall i | 0 <= i < |MetricLines(keys, ratios)| :: IsMetricLine(MetricLines(keys, ratios)[i], keys, ratios)
    ensures forall k | k in keys && k in ratios :: MetricLine(k, ratios) in MetricLines(keys, ratios)
  {
    if keys != [] {
      var init := keys[..|keys| - 1];
      var k := keys[|keys| - 1];
      MetricLinesSpec(init, ratios);
      var earlier := MetricLines(init, ratios);
      var lines := MetricLines(keys, ratios);
      assert lines == earlier + (if k in ratios then [MetricLine(k, ratios)] else []);
      assert forall j | j in init :: j in keys;
      assert forall j | j in keys :: j in init || j == k;
      forall i | 0 <= i < |lines|
        ensures IsMetricLine(lines[i], keys, ratios)
      {
        if i < |earlier| {
          assert IsMetricLine(earlier[i], init, ratios);
          var j :| j in init && j in ratios && earlier[i] == MetricLine(j, ratios);
          assert j in keys;
        } else {
          assert lines[i] == MetricLine(k, ratios);
        }
      }
    }
  }

  const ValuationHeading := "\n【主要估值指标】"
  const ProfitabilityHeading := "\n【盈利能力】"
  const GrowthHeading := "\n【成长能力】"
  const SymbolLabel := "**股票代码**: "
  const NameLabel := " | **名称**: "
  const IndustryLabel := "**行业**: "
  const SectorLabel := " | **板块**: "

  function HeaderLines(info: StockInfo): seq<string>
  {
    [SymbolLabel + info.symbol + NameLabel + info.name,
     IndustryLabel + info.industry + SectorLabel + info.sector]
  }

  /** `_format_financial_ratios` before the join: two header lines, then three headed groups. */
  function FinancialLines(ratios: Dict, info: StockInfo): seq<string>
  {
    HeaderLines(info)
    + [ValuationHeading] + MetricLines(KeyMetrics, ratios)
    + [ProfitabilityHeading] + MetricLines(ProfitMetrics, ratios)
    + [GrowthHeading] + MetricLines(GrowthMetrics, ratios)
  }

  /** The three group headings appear whatever the ratios hold, in order, after the two header lines. */
  lemma FinancialLinesShape(ratios: Dict, info: StockInfo)
    ensures var lines := FinancialLines(ratios, info);
      var a := |MetricLines(KeyMetrics, ratios)|;
      var b := |MetricLines(ProfitMetrics, ratios)|;
      && |lines| == 5 + a + b + |MetricLines(GrowthMetrics, ratios)|
      && lines[..2] == HeaderLines(info)
      && lines[2] == ValuationHeading
      && lines[3 + a] == ProfitabilityHeading
      && lines[4 + a + b] == GrowthHeading
  {
  }

  /** Appends the line of each listed metric present in `ratios` (one loop of `_format_financial_ratios`). */
  method AppendMetrics(lines: seq<string>, keys: seq<string>, ratios: Dict) returns (out: seq<string>)
    ensures out == lines + MetricLines(keys, ratios)
  {
    out := lines;
    var i := 0;
    while i < |keys|
      invariant 0 <= i <= |keys|
      invariant out == lines + MetricLines(keys[..i], ratios)
    {
      assert keys[..i + 1][..i] == keys[..i];
      if keys[i] in ratios {
        out := out + [MetricLine(keys[i], ratios)];
      }
      i := i + 1;
    }
    assert keys[..|keys|] == keys;
  }

  /** `_format_financial_ratios`: the lines above joined with newlines. */
  method FormatFinancialRatios(ratios: Dict, info: StockInfo) returns (text: string)
    ensures text == Join(FinancialLines(ratios, info), "\n")
  {
    var lines := HeaderLines(info);
    lines := lines + [ValuationHeading];
    lines := AppendMetrics(lines, KeyMetrics, ratios);
    lines := lines + [ProfitabilityHeading];
    lines := AppendMetrics(lines, ProfitMetrics, ratios);
    lines := lines + [GrowthHeading];
    lines := AppendMetrics(lines, GrowthMetrics, ratios);
    text := Join(lines, "\n");
  }

  // ---- prompts ----

  /** `indicators.get(key, 'N/A')` for each key, as template arguments named after the keys. */
  function LookupArgs(keys: seq<string>, d: Dict): (args: map<string, Arg>)
    ensures args.Keys == set k | k in keys
    ensures forall k | k in keys :: args[k] == Val(Get(d, k, VStr("N/A")))
  {
    map k | k in keys :: Val(Get(d, k, VStr("N/A")))
  }

  const TechnicalKeys: seq<string> :=
    ["price", "ma5", "ma10", "ma20", "ma60", "rsi", "macd", "macd_signal", "bb_upper", "bb_lower", "k_value", "d_value", "volume_ratio"]
  const FundFlowKeys: seq<string> := ["turnover_rate", "volume_ratio"]
  const RiskKeys: seq<string> := ["beta", "high_52w", "low_52w", "rsi"]

  const FundFlowNote := "\n【资金流向数据】\n注意：未能获取到资金流向数据，将基于成交量进行分析。\n"
  const RatiosTypeError := "AttributeError: financial_ratios is not a dict"

  /** The fundamental analyst's ratios: `financial_data.get("financial_ratios", {})` when the data is a dictionary, else `{}`. */
  function FinancialRatios(b: DataBundle): Value
  {
    if b.financialData.VDict? then Get(b.financialData.entries, "financial_ratios", VDict(map[])) else VDict(map[])
  }

  /** The financial section: the formatted ratios when there are any, else empty. */
  function FinancialSection(ratios: Dict, info: StockInfo): string
  {
    if ratios != map[] then Join(FinancialLines(ratios, info), "\n") else ""
  }

  function SectorArgs(info: StockInfo): map<string, Arg>
  {
    map["sector" := StrArg(info.sector), "industry" := StrArg(info.industry)]
  }

  /** The section argument holding fetched data, for the analysts that have one. */
  function SectionKey(role: AgentRole): string
  {
    match role
    case Technical => ""
    case Fundamental => "quarterly_section"
    case FundFlow => "fund_flow_section"
    case RiskManagement => "risk_data_text"
    case MarketSentiment => "sentiment_data_text"
    case NewsAnalyst => "news_text"
  }

  /** The data block behind `SectionKey(role)`. */
  function SectionBlock(role: AgentRole, b: DataBundle): Option<Value>
  {
    match role
    case Technical => None
    case Fundamental => b.quarterlyData
    case FundFlow => b.fundFlowData
    case RiskManagement => b.riskData
    case MarketSentiment => b.sentimentData
    case NewsAnalyst => b.newsData
  }

  /** What the section shows when the block is missing or unsuccessful. */
  function SectionFallback(role: AgentRole): string
  {
    if role == FundFlow then FundFlowNote else ""
  }

  /** The formatter that renders an analyst's fetched block for the model. */
  function Fetcher(role: AgentRole): string
  {
    match role
    case Technical => ""
    case Fundamental => "format_quarterly_reports_for_ai"
    case FundFlow => "format_fund_flow_for_ai"
    case RiskManagement => "format_risk_data_for_ai"
    case MarketSentiment => "format_sentiment_data_for_ai"
    case NewsAnalyst => "format_news_for_ai"
  }

  /**
   * An analyst's data section: its block, formatted and framed, when the block
   * reports success, else the fallback text. The technical analyst has none.
   */
  function Section(role: AgentRole, b: DataBundle): Arg
  {
    var block := SectionBlock(role, b);
    if Successful(block) then
      Fetched(Fetcher(role), block.value)
    else StrArg(SectionFallback(role))
  }

  /** No indicator is named like the stock's own arguments. */
  lemma TechnicalKeysApart()
    ensures "symbol" !in TechnicalKeys && "change_percent" !in TechnicalKeys
  {
  }

  /** The technical analyst reads every indicator with an "N/A" default and passes the price as the change. */
  function TechnicalArgs(info: StockInfo, ind: Dict): (args: map<string, Arg>)
    ensures "symbol" in args && args["symbol"] == StrArg(info.symbol)
    ensures "change_percent" in args && args["change_percent"] == Val(VFloat(info.currentPrice))
    ensures forall k | k in TechnicalKeys :: k in args && args[k] == Val(Get(ind, k, VStr("N/A")))
  {
    TechnicalKeysApart();
    map["current_price" := Val(VFloat(info.currentPrice)), "change_percent" := Val(VFloat(info.currentPrice)),
        "name" := StrArg(info.name), "symbol" := StrArg(info.symbol)]
    + LookupArgs(TechnicalKeys, ind)
  }

  /** The fundamental analyst's financial section and headline ratios come from its ratios dictionary. */
  function FundamentalArgs(ratios: Dict, info: StockInfo, b: DataBundle): (args: map<string, Arg>)
    ensures "symbol" in args && args["symbol"] == StrArg(info.symbol)
    ensures "quarterly_section" in args && args["quarterly_section"] == Section(Fundamental, b)
    ensures "financial_section" in args && args["financial_section"] == StrArg(FinancialSection(ratios, info))
    ensures "pe" in args && args["pe"] == Val(Get(ratios, PriceEarnings, VStr("N/A")))
    ensures "pb" in args && args["pb"] == Val(Get(ratios, PriceBook, VStr("N/A")))
  {
    SectorArgs(info)
    + map["pe" := Val(Get(ratios, PriceEarnings, VStr("N/A"))), "pb" := Val(Get(ratios, PriceBook, VStr("N/A"))),
          "total_market_cap" := Val(Get(ratios, TotalMarketCap, VStr("N/A"))),
          "circulating_market_cap" := Val(Get(ratios, CirculatingMarketCap, VStr("N/A"))),
          "financial_section" := StrArg(FinancialSection(ratios, info)),
          "name" := StrArg(info.name), "symbol" := StrArg(info.symbol),
          "quarterly_section" := Section(Fundamental, b)]
  }

  /** The fund-flow analyst reads turnover and volume ratio with "N/A" defaults. */
  function FundFlowArgs(info: StockInfo, ind: Dict, b: DataBundle): (args: map<string, Arg>)
    ensures "symbol" in args && args["symbol"] == StrArg(info.symbol)
    ensures "fund_flow_section" in args && args["fund_flow_section"] == Section(FundFlow, b)
    ensures forall k | k in FundFlowKeys :: k in args && args[k] == Val(Get(ind, k, VStr("N/A")))
  {
    map["name" := StrArg(info.name), "symbol" := StrArg(info.symbol), "fund_flow_section" := Section(FundFlow, b)]
    + LookupArgs(FundFlowKeys, ind)
  }

  /** The risk analyst reads beta, the 52-week range and RSI with "N/A" defaults, and the price. */
  function RiskArgs(info: StockInfo, ind: Dict, b: DataBundle): (args: map<string, Arg>)
    ensures "symbol" in args && args["symbol"] == StrArg(info.symbol)
    ensures "risk_data_text" in args && args["risk_data_text"] == Section(RiskManagement, b)
    ensures forall k | k in RiskKeys :: k in args && args[k] == Val(Get(ind, k, VStr("N/A")))
  {
    map["current_price" := Val(VFloat(info.currentPrice)),
        "name" := StrArg(info.name), "symbol" := StrArg(info.symbol), "risk_data_text" := Section(RiskManagement, b)]
    + LookupArgs(RiskKeys, ind)
  }

  function SentimentArgs(info: StockInfo, b: DataBundle): (args: map<string, Arg>)
    ensures "symbol" in args && args["symbol"] == StrArg(info.symbol)
    ensures "sentiment_data_text" in args && args["sentiment_data_text"] == Section(MarketSentiment, b)
  {
    SectorArgs(info)
    + map["name" := StrArg(info.name), "symbol" := StrArg(info.symbol), "sentiment_data_text" := Section(MarketSentiment, b)]
  }

  function NewsArgs(info: StockInfo, b: DataBundle): (args: map<string, Arg>)
    ensures "symbol" in args && args["symbol"] == StrArg(info.symbol)
    ensures "news_text" in args && args["news_text"] == Section(NewsAnalyst, b)
  {
    SectorArgs(info) + map["name" := StrArg(info.name), "symbol" := StrArg(info.symbol), "news_text" := Section(NewsAnalyst, b)]
  }

  /**
   * The template arguments of each analyst, given the fundamental analyst's
   * ratios dictionary: every analyst names the stock's symbol, and each but
   * the technical one carries its data section.
   */
  function PromptArgs(role: AgentRole, ratios: Dict, info: StockInfo, b: DataBundle): (args: map<string, Arg>)
    ensures "symbol" in args && args["symbol"] == StrArg(info.symbol)
    ensures role != Technical ==> SectionKey(role) in args && args[SectionKey(role)] == Section(role, b)
  {
    match role
    case Technical => TechnicalArgs(info, IndicatorsOrEmpty(b))
    case Fundamental => FundamentalArgs(ratios, info, b)
    case FundFlow => FundFlowArgs(info, IndicatorsOrEmpty(b), b)
    case RiskManagement => RiskArgs(info, IndicatorsOrEmpty(b), b)
    case MarketSentiment => SentimentArgs(info, b)
    case NewsAnalyst => NewsArgs(info, b)
  }

  /**
   * The filled user prompt of each analyst. Only the fundamental analyst can
   * fail before calling the model: a `financial_ratios` entry that is not a
   * dictionary makes its `.get` raise.
   */
  function UserPrompt(role: AgentRole, info: StockInfo, b: DataBundle): Result<Prompt>
  {
    if role != Fundamental then Ok(Prompt(TemplateName(role), PromptArgs(role, map[], info, b)))
    else
      var ratios := FinancialRatios(b);
      if !ratios.VDict? then Err(RatiosTypeError)
      else Ok(Prompt(TemplateName(role), PromptArgs(role, ratios.entries, info, b)))
  }

  /** Only the fundamental analyst's prompt can fail, and only over its ratios. */
  lemma UserPromptOk(role: AgentRole, info: StockInfo, b: DataBundle)
    ensures UserPrompt(role, info, b).Ok? <==> role != Fundamental || FinancialRatios(b).VDict?
  {
  }

  /**
   * Every analyst's prompt names its own template and the stock's symbol and
   * carries its data section; only the fundamental analyst's can fail.
   */
  lemma UserPromptSpec(role: AgentRole, info: StockInfo, b: DataBundle)
    ensures var r := UserPrompt(role, info, b);
      && (r.Err? <==> role == Fundamental && !FinancialRatios(b).VDict?)
      && (r.Err? ==> r.error == RatiosTypeError)
      && (r.Ok? ==> r.value.template == TemplateName(role) && r.value.args["symbol"] == StrArg(info.symbol))
      && (r.Ok? && role != Technical ==> r.value.args[SectionKey(role)] == Section(role, b))
  {
  }

  /** The fund-flow section is never empty: without successful data it carries the fixed note. */
  lemma FundFlowSectionFallback(b: DataBundle)
    ensures Section(FundFlow, b) == StrArg(FundFlowNote) <==> !Successful(b.fundFlowData)
    ensures Section(FundFlow, b) != StrArg("")
  {
  }

  /** The risk, sentiment and news texts are empty exactly when their block is missing or unsuccessful. */
  lemma DataTextEmptyUnlessSuccessful(role: AgentRole, b: DataBundle)
    requires role == RiskManagement || role == MarketSentiment || role == NewsAnalyst
    ensures Section(role, b) == StrArg("") <==> !Successful(SectionBlock(role, b))
  {
  }

  /** The fundamental analyst's prompt, building the financial section with `FormatFinancialRatios`. */
  method FundamentalPrompt(info: StockInfo, b: DataBundle) returns (r: Result<Prompt>)
    ensures r == UserPrompt(Fundamental, info, b)
  {
    var ratios := FinancialRatios(b);
    if !ratios.VDict? {
      return Err(RatiosTypeError);
    }
    var financial := "";
    if ratios.entries != map[] {
      financial := FormatFinancialRatios(ratios.entries, info);
    }
    assert financial == FinancialSection(ratios.entries, info);
    r := Ok(Prompt(TemplateName(Fundamental), PromptArgs(Fundamental, ratios.entries, info, b)));
  }

  /** The prompt step of `analyze`: the fundamental analyst formats its ratios with `FormatFinancialRatios`. */
  method BuildPrompt(role: AgentRole, info: StockInfo, b: DataBundle) returns (r: Result<Prompt>)
    ensures r == UserPrompt(role, info, b)
  {
    if role == Fundamental {
      r := FundamentalPrompt(info, b);
    } else {
      r := UserPrompt(role, info, b);
    }
  }

  /**
   * The call step of `analyze`: one gateway call with the analyst's request;
   * the reply becomes the review, a gateway error propagates, and a prompt
   * that could not be built raises before any call.
   */
  method Consult(role: AgentRole, prompt: Result<Prompt>, gw: Gateway, now: Time) returns (r: Result<AgentReview>)
    modifies gw
    ensures prompt.Err? ==> r == Err(prompt.error) && gw.log == old(gw.log)
    ensures prompt.Ok? ==>
      var req := AnalystCall(role, prompt.value);
      && gw.log == old(gw.log) + [req]
      && r == match old(gw.Reply(req)) case Ok(text) => Ok(ReviewResult(role, text, now)) case Err(e) => Err(e)
  {
    if prompt.Err? {
      return Err(prompt.error);
    }
    var reply := gw.Send(AnalystCall(role, prompt.value));
    match reply
    case Ok(text) => r := Ok(ReviewResult(role, text, now));
    case Err(e) => r := Err(e);
  }

  /** `analyze`: the analyst's prompt for the stock and bundle, then one gateway call. */
  method Analyze(role: AgentRole, info: StockInfo, b: DataBundle, gw: Gateway, now: Time) returns (r: Result<AgentReview>)
    modifies gw
    ensures UserPrompt(role, info, b).Err? ==> r == Err(UserPrompt(role, info, b).error) && gw.log == old(gw.log)
    ensures UserPrompt(role, info, b).Ok? ==>
      var req := AnalystCall(role, UserPrompt(role, info, b).value);
      && gw.log == old(gw.log) + [req]
      && r == match old(gw.Reply(req)) case Ok(text) => Ok(ReviewResult(role, text, now)) case Err(e) => Err(e)
  {
    var prompt := BuildPrompt(role, info, b);
    r := Consult(role, prompt, gw, now);
  }
}
