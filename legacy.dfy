/**
 * The legacy `DeepSeekAnalyzer`: six analyst agents selected by flags with
 * per-analyst defaults, each returning a result dictionary, and a team
 * discussion that lists the analysts present in a fixed order.
 *
 * The agents run on a thread pool and their results are gathered in
 * completion order; each agent's outcome is given by `AgentAnswer`, which
 * does not depend on the others, so the gathering loop takes them in any
 * order. The technical, fundamental and fund-flow agents call methods of
 * `DeepSeekClient` (`technical_analysis`, ...) whose answers are the
 * parameter `client`; the other three fill a template and call `call_api`,
 * which never raises (a failed call answers with an error text), whose
 * answer is the parameter `api`.
 */
module LegacyAnalyzer {
  import opened Wrappers
  import opened Strings
  import opened Values
  import opened Bundles
  import opened Llm
  import AnalysisModel

  datatype Analyst = TechnicalAgent | FundamentalAgent | FundFlowAgent | RiskAgent | SentimentAgent | NewsAgent

  /** The analysts in submission order, which is also the order of the discussion. */
  const Order: seq<Analyst> := [TechnicalAgent, FundamentalAgent, FundFlowAgent, RiskAgent, SentimentAgent, NewsAgent]

  /** An analyst's position in `Order`. */
  function Rank(a: Analyst): (n: nat)
    ensures n < |Order| && Order[n] == a
  {
    match a
    case TechnicalAgent => 0
    case FundamentalAgent => 1
    case FundFlowAgent => 2
    case RiskAgent => 3
    case SentimentAgent => 4
    case NewsAgent => 5
  }

  lemma OrderAscending()
    ensures Ascending(Order)
  {
  }

  /** `Order` lists every analyst. */
  lemma AllInOrder()
    ensures forall a: Analyst :: a in Order
  {
    forall a: Analyst
      ensures a in Order
    {
      assert Order[Rank(a)] == a;
    }
  }

  /** The flag that selects the analyst. */
  function FlagKey(a: Analyst): string
  {
    match a
    case TechnicalAgent => "technical"
    case FundamentalAgent => "fundamental"
    case FundFlowAgent => "fund_flow"
    case RiskAgent => "risk"
    case SentimentAgent => "sentiment"
    case NewsAgent => "news"
  }

  /** The value a missing flag takes: on for the first four analysts, off for sentiment and news. */
  function DefaultOn(a: Analyst): bool
  {
    a !in {SentimentAgent, NewsAgent}
  }

  /** The key the analyst's result is filed under: risk and sentiment use their long role names. */
  function ResultKey(a: Analyst): string
  {
    match a
    case TechnicalAgent => "technical"
    case FundamentalAgent => "fundamental"
    case FundFlowAgent => "fund_flow"
    case RiskAgent => "risk_management"
    case SentimentAgent => "market_sentiment"
    case NewsAgent => "news"
  }

  /** The analyst whose result a key holds. */
  function AnalystOfKey(k: string): (a: Option<Analyst>)
    ensures a.Some? ==> ResultKey(a.value) == k
  {
    if k == "technical" then Some(TechnicalAgent)
    else if k == "fundamental" then Some(FundamentalAgent)
    else if k == "fund_flow" then Some(FundFlowAgent)
    else if k == "risk_management" then Some(RiskAgent)
    else if k == "market_sentiment" then Some(SentimentAgent)
    else if k == "news" then Some(NewsAgent)
    else None
  }

  /** Every result key names its analyst back; so distinct analysts file under distinct keys. */
  lemma ResultKeyRoundTrip(a: Analyst)
    ensures AnalystOfKey(ResultKey(a)) == Some(a)
  {
  }

  /** The result key differs from the flag key exactly for the risk and sentiment analysts. */
  lemma KeysDiffer(a: Analyst)
    ensures ResultKey(a) != FlagKey(a) <==> a in {RiskAgent, SentimentAgent}
  {
  }

  // ---- selection ----

  /** `enabled_analysts.get(key, default)` over the flags in dict order. */
  function FlagOr(enabled: seq<(string, bool)>, key: string, default: bool): (on: bool)
    ensures (forall i | 0 <= i < |enabled| :: enabled[i].0 != key) ==> on == default
  {
    if |enabled| == 0 then default else if enabled[0].0 == key then enabled[0].1 else FlagOr(enabled[1..], key, default)
  }

  /** Whether the analyst runs: a missing flag dictionary turns on all six. */
  predicate Runs(enabled: Option<seq<(string, bool)>>, a: Analyst)
  {
    enabled.None? || FlagOr(enabled.value, FlagKey(a), DefaultOn(a))
  }

  /** The ranks strictly increase along `xs`: it lists analysts once each, in the fixed order. */
  predicate Ascending(xs: seq<Analyst>)
  {
    forall i, j | 0 <= i < j < |xs| :: Rank(xs[i]) < Rank(xs[j])
  }

  /** The members of `xs` that are in `keep`, in order. */
  function Keep(xs: seq<Analyst>, keep: set<Analyst>): (r: seq<Analyst>)
    ensures |r| <= |xs|
    ensures forall a :: a in r <==> a in xs && a in keep
  {
    if xs == [] then [] else (if xs[0] in keep then [xs[0]] else []) + Keep(xs[1..], keep)
  }

  /** Filtering an ascending list keeps it ascending. */
  lemma {:induction false} KeepAscending(xs: seq<Analyst>, keep: set<Analyst>)
    requires Ascending(xs)
    ensures Ascending(Keep(xs, keep))
  {
    if xs != [] {
      var rest := Keep(xs[1..], keep);
      KeepAscending(xs[1..], keep);
      if xs[0] in keep {
        var r := [xs[0]] + rest;
        assert Keep(xs, keep) == r;
        forall i, j | 0 <= i < j < |r|
          ensures Rank(r[i]) < Rank(r[j])
        {
          assert r[j] == rest[j - 1] && rest[j - 1] in xs[1..];
          if i > 0 {
            assert r[i] == rest[i - 1];
          }
        }
      } else {
        assert Keep(xs, keep) == rest;
      }
    }
  }

  /** The set of analysts the flags turn on. */
  function RunSet(enabled: Option<seq<(string, bool)>>): (s: set<Analyst>)
    ensures forall a :: a in s <==> Runs(enabled, a)
  {
    AllInOrder();
    set a | a in Order && Runs(enabled, a)
  }

  /** The analysts submitted to the pool, in submission order. */
  function Selected(enabled: Option<seq<(string, bool)>>): (sel: seq<Analyst>)
    ensures forall a :: a in sel <==> Runs(enabled, a)
    ensures Ascending(sel)
  {
    OrderAscending();
    KeepAscending(Order, RunSet(enabled));
    AllInOrder();
    Keep(Order, RunSet(enabled))
  }

  /** Without a flag dictionary all six analysts run; with an empty one, the four defaults. */
  lemma SelectionDefaults()
    ensures forall a :: a in Selected(None)
    ensures forall a :: a in Selected(Some([])) <==> a !in {SentimentAgent, NewsAgent}
  {
  }

  // ---- the agents ----

  function AgentName(a: Analyst): string
  {
    match a
    case TechnicalAgent => "技术分析师"
    case FundamentalAgent => "基本面分析师"
    case FundFlowAgent => "资金面分析师"
    case RiskAgent => "风险管理师"
    case SentimentAgent => "市场情绪分析师"
    case NewsAgent => "新闻分析师"
  }

  /** The fixed description filed under "agent_role". */
  function Duty(a: Analyst): string
  {
    match a
    case TechnicalAgent => "负责技术指标分析、图表形态识别、趋势判断"
    case FundamentalAgent => "负责公司财务分析、行业研究、估值分析"
    case FundFlowAgent => "负责资金流向分析、主力行为研究、市场情绪判断"
    case RiskAgent => "负责风险识别、风险评估、风险控制策略制定"
    case SentimentAgent => "负责市场情绪研究、投资者心理分析、热点追踪"
    case NewsAgent => "负责新闻事件分析、舆情研究、重大事件影响评估"
  }

  function FocusAreas(a: Analyst): seq<string>
  {
    match a
    case TechnicalAgent => ["技术指标", "趋势分析", "支撑阻力", "交易信号"]
    case FundamentalAgent => ["财务指标", "行业分析", "公司价值", "成长性", "季报趋势"]
    case FundFlowAgent => ["资金流向", "主力动向", "市场情绪", "流动性"]
    case RiskAgent => ["限售解禁风险", "股东减持风险", "重要事件风险", "风险识别", "风险量化", "风险控制", "资产配置"]
    case SentimentAgent => ["ARBR指标", "市场情绪", "投资者心理", "资金活跃度", "恐慌贪婪指数"]
    case NewsAgent => ["新闻解读", "舆情分析", "事件影响", "市场反应", "投资机会"]
  }

  function Texts(xs: seq<string>): (v: seq<Value>)
    ensures |v| == |xs| && forall i | 0 <= i < |xs| :: v[i] == VStr(xs[i])
  {
    if xs == [] then [] else [VStr(xs[0])] + Texts(xs[1..])
  }

  /** `block.data if block else None` */
  function BlockData(block: Option<Value>): Value
  {
    if block.Some? then block.value else VNone
  }

  /** The bundle block an analyst receives and files with its result, and its key; the technical analyst has none. */
  function DataEntry(a: Analyst, b: DataBundle): Option<(string, Value)>
  {
    match a
    case TechnicalAgent => None
    case FundamentalAgent => Some(("quarterly_data", BlockData(b.quarterlyData)))
    case FundFlowAgent => Some(("fund_flow_data", BlockData(b.fundFlowData)))
    case RiskAgent => Some(("risk_data", BlockData(b.riskData)))
    case SentimentAgent => Some(("sentiment_data", BlockData(b.sentimentData)))
    case NewsAgent => Some(("news_data", BlockData(b.newsData)))
  }

  /** The entries every agent's dictionary has. */
  function BaseDict(a: Analyst, text: string, now: AnalysisModel.Time): (d: Dict)
    ensures d.Keys == {"agent_name", "agent_role", "analysis", "focus_areas", "timestamp"}
    ensures d["agent_name"] == VStr(AgentName(a)) && d["analysis"] == VStr(text)
    ensures d["focus_areas"] == VList(Texts(FocusAreas(a)))
  {
    map["agent_name" := VStr(AgentName(a)), "agent_role" := VStr(Duty(a)), "analysis" := VStr(text),
        "focus_areas" := VList(Texts(FocusAreas(a))), "timestamp" := VStr(AnalysisModel.StampText(now))]
  }

  /** An agent's data key never clashes with the common entries. */
  lemma DataKeyFresh(a: Analyst, b: DataBundle)
    ensures DataEntry(a, b).Some? ==> DataEntry(a, b).value.0 !in {"agent_name", "agent_role", "analysis", "focus_areas", "timestamp"}
  {
  }

  /** The dictionary an agent returns: the common entries, plus its data block under its own key. */
  function AgentDict(a: Analyst, text: string, b: DataBundle, now: AnalysisModel.Time): (d: Dict)
    ensures DataEntry(a, b).None? ==> d == BaseDict(a, text, now)
    ensures DataEntry(a, b).Some? ==> var e := DataEntry(a, b).value;
      && e.0 !in BaseDict(a, text, now) && d.Keys == BaseDict(a, text, now).Keys + {e.0}
      && d[e.0] == e.1 && d - {e.0} == BaseDict(a, text, now)
  {
    var base := BaseDict(a, text, now);
    DataKeyFresh(a, b);
    match DataEntry(a, b)
    case None => base
    case Some(e) => base[e.0 := e.1]
  }

  // ---- the three template agents ----

  const AttributeErrorGet := "AttributeError: object has no attribute 'get'"

  /**
   * The data text of the risk, sentiment and news prompts: empty unless the
   * data is truthy and its `data_success` is; then the fetcher's formatting
   * of the data. Truthy data that is not a dictionary makes `.get` raise.
   */
  function DataText(data: Value, formatter: string): (r: Result<Arg>)
    ensures !Truthy(data) ==> r == Ok(StrArg(""))
    ensures Truthy(data) && !data.VDict? ==> r.Err?
    ensures DictFlag(data, "data_success") ==> r == Ok(Fetched(formatter, data))
    ensures r.Ok? && r.value != StrArg("") ==> DictFlag(data, "data_success")
  {
    if !Truthy(data) then Ok(StrArg(""))
    else if !data.VDict? then Err(AttributeErrorGet)
    else if Truthy(Get(data.entries, "data_success", VNone)) then Ok(Fetched(formatter, data))
    else Ok(StrArg(""))
  }

  /** `stock_info.get(key, 'N/A')` as a template value. */
  function InfoArg(info: Dict, key: string): Arg
  {
    Val(Get(info, key, VStr("N/A")))
  }

  const RiskSystem := "你是一名资深的风险管理专家，具有20年以上的风险识别和控制经验，擅长全面评估各类投资风险，特别关注限售解禁、股东减持、重要事件等可能影响股价的风险因素。你擅长从海量原始数据中提取关键信息，进行深度解析和量化评估。"
  const SentimentSystem := "你是一名专业的市场情绪分析师，擅长解读市场心理和投资者行为，善于利用ARBR等情绪指标进行分析。"
  const NewsSystem := "你是一名专业的新闻分析师，擅长解读新闻事件、舆情分析，评估新闻对股价的影响。你具有敏锐的洞察力和丰富的市场经验。"

  /** The risk manager's `call_api` request: the filled template, 6000 tokens. */
  function RiskRequest(info: Dict, indicators: Dict, dataText: Arg): (r: Request)
    ensures r.maxTokens == 6000 && r.temperature == DefaultTemperature
    ensures |r.messages| == 2 && r.messages[1].content.Filled?
    ensures "risk_data_text" in r.messages[1].content.prompt.args && r.messages[1].content.prompt.args["risk_data_text"] == dataText
  {
    SystemUserRequest(RiskSystem, Filled(Prompt("RISK_MANAGEMENT_PROMPT", map[
      "symbol" := InfoArg(info, "symbol"), "name" := InfoArg(info, "name"),
      "current_price" := InfoArg(info, "current_price"), "beta" := InfoArg(info, "beta"),
      "high_52w" := InfoArg(info, "52_week_high"), "low_52w" := InfoArg(info, "52_week_low"),
      "rsi" := Val(Get(indicators, "rsi", VStr("N/A"))), "risk_data_text" := dataText])), DefaultTemperature, 6000)
  }

  /** The sentiment analyst's `call_api` request: the filled template, 4000 tokens. */
  function SentimentRequest(info: Dict, dataText: Arg): (r: Request)
    ensures r.maxTokens == 4000 && r.temperature == DefaultTemperature
    ensures |r.messages| == 2 && r.messages[1].content.Filled?
    ensures "sentiment_data_text" in r.messages[1].content.prompt.args && r.messages[1].content.prompt.args["sentiment_data_text"] == dataText
  {
    SystemUserRequest(SentimentSystem, Filled(Prompt("MARKET_SENTIMENT_PROMPT", map[
      "symbol" := InfoArg(info, "symbol"), "name" := InfoArg(info, "name"),
      "sector" := InfoArg(info, "sector"), "industry" := InfoArg(info, "industry"),
      "sentiment_data_text" := dataText])), DefaultTemperature, 4000)
  }

  /** The news analyst's `call_api` request: the filled template, 4000 tokens. */
  function NewsRequest(info: Dict, dataText: Arg): (r: Request)
    ensures r.maxTokens == 4000 && r.temperature == DefaultTemperature
    ensures |r.messages| == 2 && r.messages[1].content.Filled?
    ensures "news_text" in r.messages[1].content.prompt.args && r.messages[1].content.prompt.args["news_text"] == dataText
  {
    SystemUserRequest(NewsSystem, Filled(Prompt("NEWS_ANALYSIS_PROMPT", map[
      "symbol" := InfoArg(info, "symbol"), "name" := InfoArg(info, "name"),
      "sector" := InfoArg(info, "sector"), "industry" := InfoArg(info, "industry"),
      "news_text" := dataText])), DefaultTemperature, 4000)
  }

  /**
   * One agent's analysis text, or the error it raises. The first three
   * analysts are the client's answers; the risk manager needs the bundle's
   * indicators (`None.get` raises otherwise); the template agents raise only
   * when their data text does.
   */
  function AgentAnswer(a: Analyst, info: Dict, b: DataBundle, api: Request -> string,
                       client: (Analyst, Dict, DataBundle) -> Result<string>): (r: Result<string>)
    ensures a in {TechnicalAgent, FundamentalAgent, FundFlowAgent} ==> r == client(a, info, b)
    ensures a == RiskAgent && b.indicators.None? ==> r.Err?
    ensures a == SentimentAgent && !Truthy(BlockData(b.sentimentData)) ==>
      r == Ok(api(SentimentRequest(info, StrArg(""))))
  {
    match a
    case RiskAgent =>
      if b.indicators.None? then Err(AttributeErrorGet)
      else
        var text := DataText(BlockData(b.riskData), "format_risk_data_for_ai");
        if text.Err? then Err(text.error) else Ok(api(RiskRequest(info, b.indicators.value, text.value)))
    case SentimentAgent =>
      var text := DataText(BlockData(b.sentimentData), "format_sentiment_data_for_ai");
      if text.Err? then Err(text.error) else Ok(api(SentimentRequest(info, text.value)))
    case NewsAgent =>
      var text := DataText(BlockData(b.newsData), "format_news_for_ai");
      if text.Err? then Err(text.error) else Ok(api(NewsRequest(info, text.value)))
    case _ => client(a, info, b)
  }

  /** What every agent sees: the stock info, the bundle, the two client answers and the clock. */
  datatype Env = Env(info: Dict, bundle: DataBundle, api: Request -> string,
                     client: (Analyst, Dict, DataBundle) -> Result<string>, now: AnalysisModel.Time)

  /** One agent's result dictionary, or the error it raises. */
  function AgentOutcome(a: Analyst, env: Env): (r: Result<Dict>)
    ensures r.Ok? <==> AgentAnswer(a, env.info, env.bundle, env.api, env.client).Ok?
    ensures r.Ok? ==> r.value == AgentDict(a, AgentAnswer(a, env.info, env.bundle, env.api, env.client).value, env.bundle, env.now)
  {
    match AgentAnswer(a, env.info, env.bundle, env.api, env.client)
    case Ok(text) => Ok(AgentDict(a, text, env.bundle, env.now))
    case Err(e) => Err(e)
  }

  /** Every agent's outcome. */
  function Outcomes(env: Env): (outs: map<Analyst, Result<Dict>>)
    ensures forall a: Analyst :: a in outs && outs[a] == AgentOutcome(a, env)
  {
    AllInOrder();
    map a: Analyst | a in Order :: AgentOutcome(a, env)
  }

  // ---- run_multi_agent_analysis ----

  /**
   * `results` holds exactly the analysts in `ran` whose outcome is a
   * dictionary, each under its result key with that dictionary, and nothing
   * else.
   */
  predicate ResultsOf(results: map<string, Dict>, ran: set<Analyst>, outs: map<Analyst, Result<Dict>>)
  {
    && (forall a: Analyst :: ResultKey(a) in results <==> a in ran && a in outs && outs[a].Ok?)
    && (forall a | a in ran && a in outs && outs[a].Ok? :: results[ResultKey(a)] == outs[a].value)
    && (forall k | k in results :: AnalystOfKey(k).Some?)
  }

  /** Gathering one more finished agent keeps `ResultsOf`. */
  lemma ResultsOfStep(results: map<string, Dict>, ran: set<Analyst>, outs: map<Analyst, Result<Dict>>, a: Analyst)
    requires a !in ran && a in outs && ResultsOf(results, ran, outs)
    ensures outs[a].Ok? ==> ResultsOf(results[ResultKey(a) := outs[a].value], ran + {a}, outs)
    ensures outs[a].Err? ==> ResultsOf(results, ran + {a}, outs)
  {
    ResultKeyRoundTrip(a);
    forall b: Analyst
      ensures ResultKey(b) == ResultKey(a) ==> b == a
    {
      ResultKeyRoundTrip(b);
    }
  }

  /**
   * `run_multi_agent_analysis`: the selected agents' outcomes, gathered in
   * any completion order; a raising agent is logged and skipped.
   */
  method RunMultiAgentAnalysis(env: Env, enabled: Option<seq<(string, bool)>>) returns (results: map<string, Dict>)
    ensures ResultsOf(results, RunSet(enabled), Outcomes(env))
  {
    var outs := Outcomes(env);
    var pending := RunSet(enabled);
    var done: set<Analyst> := {};
    results := map[];
    while pending != {}
      invariant done !! pending && done + pending == RunSet(enabled)
      invariant ResultsOf(results, done, outs)
      decreases pending
    {
      var a :| a in pending;
      ResultsOfStep(results, done, outs, a);
      var r := AgentOutcome(a, env);
      if r.Ok? {
        results := results[ResultKey(a) := r.value];
      }
      done := done + {a};
      pending := pending - {a};
    }
  }

  /**
   * With the client as it ships (it defines only `call_chat` and `call_api`,
   * so `technical_analysis` and its siblings raise), only the risk,
   * sentiment and news analysts can ever have a result; the risk manager
   * has one whenever it runs, the indicators are present and its data is
   * falsy.
   */
  lemma ClientAsShipped(results: map<string, Dict>, env: Env, enabled: Option<seq<(string, bool)>>)
    requires forall a: Analyst :: env.client(a, env.info, env.bundle).Err?
    requires ResultsOf(results, RunSet(enabled), Outcomes(env))
    ensures forall k | k in results :: k in {"risk_management", "market_sentiment", "news"}
    ensures enabled.None? && env.bundle.indicators.Some? && !Truthy(BlockData(env.bundle.riskData)) ==> "risk_management" in results
  {
    forall k | k in results
      ensures k in {"risk_management", "market_sentiment", "news"}
    {
      var a := AnalystOfKey(k).value;
      assert AgentOutcome(a, env).Ok?;
    }
    if enabled.None? && env.bundle.indicators.Some? && !Truthy(BlockData(env.bundle.riskData)) {
      assert AgentOutcome(RiskAgent, env).Ok?;
    }
  }

  // ---- conduct_team_discussion ----

  /** The analysts whose key has a result. */
  function PresentSet(results: map<string, Dict>): (s: set<Analyst>)
    ensures forall a :: a in s <==> ResultKey(a) in results
  {
    AllInOrder();
    set a | a in Order && ResultKey(a) in results
  }

  /** The analysts with a result, in the fixed order. */
  function Present(results: map<string, Dict>): (p: seq<Analyst>)
    ensures forall a :: a in p <==> ResultKey(a) in results
    ensures Ascending(p)
  {
    OrderAscending();
    KeepAscending(Order, PresentSet(results));
    AllInOrder();
    Keep(Order, PresentSet(results))
  }

  function Names(xs: seq<Analyst>): (r: seq<string>)
    ensures |r| == |xs| && forall i | 0 <= i < |xs| :: r[i] == AgentName(xs[i])
  {
    if xs == [] then [] else [AgentName(xs[0])] + Names(xs[1..])
  }

  /** One analyst's report: its name as a heading, then its analysis (missing as ""). */
  function Report(a: Analyst, results: map<string, Dict>): string
    requires ResultKey(a) in results
  {
    "【" + AgentName(a) + "报告】\n" + Str(Get(results[ResultKey(a)], "analysis", VStr("")))
  }

  function Reports(xs: seq<Analyst>, results: map<string, Dict>): (r: seq<string>)
    requires forall a | a in xs :: ResultKey(a) in results
    ensures |r| == |xs| && forall i | 0 <= i < |xs| :: r[i] == Report(xs[i], results)
  {
    if xs == [] then [] else [Report(xs[0], results)] + Reports(xs[1..], results)
  }

  const DiscussionSystem := "你需要模拟一场专业的投资团队讨论会议，体现不同角色的观点碰撞和最终共识形成。"

  /** The discussion request: participants joined with ", ", reports with blank lines, 6000 tokens. */
  function DiscussionRequest(results: map<string, Dict>, info: Dict): (r: Request)
    ensures r.maxTokens == 6000 && |r.messages| == 2 && r.messages[1].content.Filled?
    ensures var args := r.messages[1].content.prompt.args;
      && "participants" in args && "reports" in args
      && args["participants"] == StrArg(Join(Names(Present(results)), ", "))
      && args["reports"] == StrArg(Join(Reports(Present(results), results), "\n\n"))
  {
    var present := Present(results);
    SystemUserRequest(DiscussionSystem, Filled(Prompt("TEAM_DISCUSSION_PROMPT", map[
      "participants" := StrArg(Join(Names(present), ", ")),
      "name" := InfoArg(info, "name"), "symbol" := InfoArg(info, "symbol"),
      "reports" := StrArg(Join(Reports(present, results), "\n\n"))])), DefaultTemperature, 6000)
  }

  /** The participants and reports cover exactly the analysts with a result, once each, in the fixed order. */
  lemma DiscussionCoversResults(results: map<string, Dict>)
    ensures var p := Present(results);
      && |Names(p)| == |Reports(p, results)| == |p|
      && (forall a :: a in p <==> ResultKey(a) in results)
      && (forall i, j | 0 <= i < j < |p| :: p[i] != p[j])
      && (forall k | k in results && AnalystOfKey(k).Some? :: AgentName(AnalystOfKey(k).value) in Names(p))
  {
    var p := Present(results);
    forall k | k in results && AnalystOfKey(k).Some?
      ensures AgentName(AnalystOfKey(k).value) in Names(p)
    {
      var a := AnalystOfKey(k).value;
      var i :| 0 <= i < |p| && p[i] == a;
      assert Names(p)[i] == AgentName(a);
    }
  }

  /** The `call_api` of the team discussion: answers never raise. */
  class Client {
    const reply: (nat, Request) -> string
    var log: seq<Request>

    constructor (reply: (nat, Request) -> string)
      ensures this.reply == reply && log == []
    {
      this.reply := reply;
      log := [];
    }

    method CallApi(req: Request) returns (text: string)
      modifies this
      ensures log == old(log) + [req] && text == reply(|old(log)|, req)
    {
      text := reply(|log|, req);
      log := log + [req];
    }
  }

  /** `conduct_team_discussion`: exactly one call, the discussion request, whose answer is returned. */
  method ConductTeamDiscussion(results: map<string, Dict>, info: Dict, client: Client) returns (discussion: string)
    modifies client
    ensures client.log == old(client.log) + [DiscussionRequest(results, info)]
    ensures discussion == client.reply(|old(client.log)|, DiscussionRequest(results, info))
  {
    discussion := client.CallApi(DiscussionRequest(results, info));
  }
}
