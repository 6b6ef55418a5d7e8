/**
 * `AnalyzeSingleStockUseCase.execute`: gather the market data (preloaded
 * data is used as it is), fetch the optional blocks the analyst flags ask for,
 * turn the flags into roles, run the orchestrator, save the aggregate, and
 * answer with the record id, the bundle and the result DTO.
 *
 * The data ports are oracles behind `DataPorts`, which logs every fetch.
 */
module AnalysisUseCase {
  import opened Wrappers
  import opened Values
  import opened Frames
  import opened Bundles
  import opened AnalysisModel
  import opened Llm
  import opened Orchestrator
  import opened Repository
  import opened OptionalData

  /** `StockRequest`: the analyst flags in their dict order (the model name only selects the LLM, a parameter here). */
  datatype StockRequest = StockRequest(symbol: string, period: string, model: string, enabledAnalysts: seq<(string, bool)>)

  /** `enabled.get(key, False)`: the flag of the first entry with that key. */
  function Flag(enabled: seq<(string, bool)>, key: string): bool
  {
    if |enabled| == 0 then false else if enabled[0].0 == key then enabled[0].1 else Flag(enabled[1..], key)
  }

  // ---- roles ----

  /**
   * The role a request key names: the six table keys (where "risk",
   * "sentiment" and "news" stand for the longer role values), else the role
   * whose value the key is, else none.
   */
  function MappedRole(key: string): (r: Option<AgentRole>)
    ensures key in {"risk", "risk_management"} ==> r == Some(RiskManagement)
    ensures key in {"sentiment", "market_sentiment"} ==> r == Some(MarketSentiment)
    ensures key in {"news", "news_analyst"} ==> r == Some(NewsAnalyst)
    ensures RoleOf(key).Some? ==> r == RoleOf(key)
    ensures r.None? <==> RoleOf(key).None? && key !in {"risk", "sentiment", "news"}
  {
    if key == "technical" then Some(Technical)
    else if key == "fundamental" then Some(Fundamental)
    else if key == "fund_flow" then Some(AgentRole.FundFlow)
    else if key == "risk" then Some(RiskManagement)
    else if key == "sentiment" then Some(MarketSentiment)
    else if key == "news" then Some(NewsAnalyst)
    else RoleOf(key)
  }

  /** What one flag entry adds to the role list. */
  function EntryRoles(entry: (string, bool)): seq<AgentRole>
  {
    if entry.1 && MappedRole(entry.0).Some? then [MappedRole(entry.0).value] else []
  }

  /** The roles of the enabled flags, in dict order. */
  function EnabledRoles(enabled: seq<(string, bool)>): (roles: seq<AgentRole>)
    ensures |roles| <= |enabled|
  {
    if |enabled| == 0 then [] else EnabledRoles(enabled[..|enabled| - 1]) + EntryRoles(enabled[|enabled| - 1])
  }

  /** Every listed role comes from an enabled key that names it: disabled and unknown keys contribute nothing. */
  lemma {:induction false} EnabledRolesSound(enabled: seq<(string, bool)>)
    ensures forall k | 0 <= k < |EnabledRoles(enabled)| ::
      exists i | 0 <= i < |enabled| :: enabled[i].1 && MappedRole(enabled[i].0) == Some(EnabledRoles(enabled)[k])
  {
    if |enabled| > 0 {
      var init := enabled[..|enabled| - 1];
      var last := enabled[|enabled| - 1];
      EnabledRolesSound(init);
      assert EnabledRoles(enabled) == EnabledRoles(init) + EntryRoles(last);
      forall k | 0 <= k < |EnabledRoles(enabled)|
        ensures exists i | 0 <= i < |enabled| :: enabled[i].1 && MappedRole(enabled[i].0) == Some(EnabledRoles(enabled)[k])
      {
        if k < |EnabledRoles(init)| {
          var i :| 0 <= i < |init| && init[i].1 && MappedRole(init[i].0) == Some(EnabledRoles(init)[k]);
          assert enabled[i] == init[i];
        } else {
          assert enabled[|enabled| - 1] == last;
        }
      }
    } else {
      assert |EnabledRoles(enabled)| == 0;
    }
  }

  /** Every enabled key that names a role contributes that role. */
  lemma {:induction false} EnabledRolesComplete(enabled: seq<(string, bool)>)
    ensures forall i | 0 <= i < |enabled| && enabled[i].1 && MappedRole(enabled[i].0).Some? ::
      MappedRole(enabled[i].0).value in EnabledRoles(enabled)
  {
    if |enabled| > 0 {
      var init := enabled[..|enabled| - 1];
      EnabledRolesComplete(init);
      assert EnabledRoles(enabled) == EnabledRoles(init) + EntryRoles(enabled[|enabled| - 1]);
      forall i | 0 <= i < |enabled| && enabled[i].1 && MappedRole(enabled[i].0).Some?
        ensures MappedRole(enabled[i].0).value in EnabledRoles(enabled)
      {
        if i < |init| {
          assert enabled[i] == init[i];
        }
      }
    }
  }

  /** Both "risk" and "risk_management" enabled: the risk role is listed twice. */
  lemma RiskListedTwice()
    ensures EnabledRoles([("risk", true), ("risk_management", true)]) == [RiskManagement, RiskManagement]
  {
    assert [("risk", true), ("risk_management", true)][..1] == [("risk", true)];
    assert [("risk", true)][..0] == [];
  }

  /** The loop of `execute` that builds `enabled_roles`. */
  method BuildEnabledRoles(enabled: seq<(string, bool)>) returns (roles: seq<AgentRole>)
    ensures roles == EnabledRoles(enabled)
  {
    roles := [];
    var i := 0;
    while i < |enabled|
      invariant 0 <= i <= |enabled|
      invariant roles == EnabledRoles(enabled[..i])
    {
      assert enabled[..i + 1][..i] == enabled[..i];
      var key := enabled[i].0;
      if enabled[i].1 {
        var role := MappedRole(key);
        if role.Some? {
          roles := roles + [role.value];
        }
      }
      i := i + 1;
    }
    assert enabled[..|enabled|] == enabled;
  }

  // ---- data gathering ----

  /** One call into a data port. */
  datatype Fetch = BundleFetch(symbol: string, period: string) | FinancialFetch(symbol: string) | OptionalFetch(kind: Kind, symbol: string)

  /**
   * The market-data and optional-data ports: fixed answers per call (an
   * `OptionalDataProvider` answers `None` or a wrapped block) and a log of
   * the calls made.
   */
  class DataPorts {
    const bundleOf: (string, string) -> DataBundle
    const financialOf: string -> Value
    const optionalOf: (Kind, string, Option<Frame>) -> Option<Value>
    var log: seq<Fetch>

    constructor (bundleOf: (string, string) -> DataBundle, financialOf: string -> Value,
                 optionalOf: (Kind, string, Option<Frame>) -> Option<Value>)
      ensures this.bundleOf == bundleOf && this.financialOf == financialOf && this.optionalOf == optionalOf
      ensures log == []
    {
      this.bundleOf := bundleOf;
      this.financialOf := financialOf;
      this.optionalOf := optionalOf;
      log := [];
    }

    /** `get_stock_data_bundle` */
    method GetBundle(symbol: string, period: string) returns (b: DataBundle)
      modifies this
      ensures b == bundleOf(symbol, period) && log == old(log) + [BundleFetch(symbol, period)]
    {
      b := bundleOf(symbol, period);
      log := log + [BundleFetch(symbol, period)];
    }

    /** `get_financial_data` */
    method GetFinancial(symbol: string) returns (v: Value)
      modifies this
      ensures v == financialOf(symbol) && log == old(log) + [FinancialFetch(symbol)]
    {
      v := financialOf(symbol);
      log := log + [FinancialFetch(symbol)];
    }

    /** One of the five `get_*_data` accessors (the sentiment one also sees the history). */
    method GetOptional(kind: Kind, symbol: string, stockData: Option<Frame>) returns (d: Option<Value>)
      modifies this
      ensures d == optionalOf(kind, symbol, stockData) && log == old(log) + [OptionalFetch(kind, symbol)]
    {
      d := optionalOf(kind, symbol, stockData);
      log := log + [OptionalFetch(kind, symbol)];
    }
  }

  /** The flag that asks for each optional block: fund flow follows the technical analyst. */
  function GateKey(kind: Kind): string
  {
    match kind
    case Quarterly => "fundamental"
    case FundFlow => "technical"
    case Sentiment => "sentiment"
    case News => "news"
    case Risk => "risk"
  }

  /** The fetch of one optional block: made exactly when its flag is on. */
  function GateFetch(enabled: seq<(string, bool)>, kind: Kind, symbol: string): (fs: seq<Fetch>)
    ensures |fs| <= 1 && forall f | f in fs :: f == OptionalFetch(kind, symbol)
    ensures OptionalFetch(kind, symbol) in fs <==> Flag(enabled, GateKey(kind))
  {
    if Flag(enabled, GateKey(kind)) then [OptionalFetch(kind, symbol)] else []
  }

  /** The optional-block fetches of `execute`, in the order quarterly, fund flow, sentiment, news, risk. */
  function OptionalFetches(enabled: seq<(string, bool)>, symbol: string): seq<Fetch>
  {
    GateFetch(enabled, Quarterly, symbol) + GateFetch(enabled, Kind.FundFlow, symbol) + GateFetch(enabled, Sentiment, symbol)
    + GateFetch(enabled, News, symbol) + GateFetch(enabled, Risk, symbol)
  }

  /** An optional block is fetched exactly when its flag is on (fund flow following the technical analyst), and at most once. */
  lemma OptionalFetchesSpec(enabled: seq<(string, bool)>, symbol: string)
    ensures forall f | f in OptionalFetches(enabled, symbol) :: f.OptionalFetch? && f.symbol == symbol
    ensures forall k: Kind :: OptionalFetch(k, symbol) in OptionalFetches(enabled, symbol) <==> Flag(enabled, GateKey(k))
    ensures |OptionalFetches(enabled, symbol)| <= 5
  {
    var q, ff, se, n, r := GateFetch(enabled, Quarterly, symbol), GateFetch(enabled, Kind.FundFlow, symbol),
      GateFetch(enabled, Sentiment, symbol), GateFetch(enabled, News, symbol), GateFetch(enabled, Risk, symbol);
    var all := OptionalFetches(enabled, symbol);
    assert all == q + ff + se + n + r;
    forall f | f in all
      ensures f.OptionalFetch? && f.symbol == symbol
    {
      assert f in q || f in ff || f in se || f in n || f in r;
    }
    forall k: Kind
      ensures OptionalFetch(k, symbol) in all <==> Flag(enabled, GateKey(k))
    {
      var g := OptionalFetch(k, symbol);
      assert g in all <==> g in q || g in ff || g in se || g in n || g in r;
    }
  }

  /** The calls `execute` makes into the ports: the bundle and the financial data only when not preloaded, then the optional blocks. */
  function FetchLog(request: StockRequest, preBundle: Option<DataBundle>, preFinancial: Value): seq<Fetch>
  {
    (if preBundle.None? then [BundleFetch(request.symbol, request.period)] else [])
    + (if preFinancial == VNone then [FinancialFetch(request.symbol)] else [])
    + OptionalFetches(request.enabledAnalysts, request.symbol)
  }

  /** A preloaded bundle or financial payload means its port is never called. */
  lemma PreloadedNotFetched(request: StockRequest, preBundle: Option<DataBundle>, preFinancial: Value)
    ensures BundleFetch(request.symbol, request.period) in FetchLog(request, preBundle, preFinancial) <==> preBundle.None?
    ensures FinancialFetch(request.symbol) in FetchLog(request, preBundle, preFinancial) <==> preFinancial == VNone
    ensures forall k: Kind :: OptionalFetch(k, request.symbol) in FetchLog(request, preBundle, preFinancial)
                              <==> Flag(request.enabledAnalysts, GateKey(k))
  {
    OptionalFetchesSpec(request.enabledAnalysts, request.symbol);
  }

  /** A block fetched when its flag is on, absent otherwise. */
  function Gated(enabled: seq<(string, bool)>, kind: Kind, symbol: string, stockData: Option<Frame>,
                 optionalOf: (Kind, string, Option<Frame>) -> Option<Value>): Option<Value>
  {
    if Flag(enabled, GateKey(kind)) then optionalOf(kind, symbol, stockData) else None
  }

  /**
   * The full bundle: the bundle's information, history and indicators, the
   * financial payload, and the gated optional blocks (the sentiment fetch is
   * given the bundle's history).
   */
  function FullBundle(b: DataBundle, financial: Value, request: StockRequest,
                      optionalOf: (Kind, string, Option<Frame>) -> Option<Value>): (full: DataBundle)
    ensures full.stockInfo == b.stockInfo && full.stockData == b.stockData && full.indicators == b.indicators
    ensures full.financialData == financial
    ensures !Flag(request.enabledAnalysts, "news") ==> full.newsData.None?
    ensures !Flag(request.enabledAnalysts, "technical") ==> full.fundFlowData.None?
  {
    var e := request.enabledAnalysts;
    DataBundle(b.stockInfo, b.stockData, b.indicators, financial,
               Gated(e, Kind.FundFlow, request.symbol, b.stockData, optionalOf),
               Gated(e, Sentiment, request.symbol, b.stockData, optionalOf),
               Gated(e, News, request.symbol, b.stockData, optionalOf),
               Gated(e, Quarterly, request.symbol, b.stockData, optionalOf),
               Gated(e, Risk, request.symbol, b.stockData, optionalOf))
  }

  /** With `DefaultOptionalDataProvider` as the port, a non-A-share symbol gets no optional block whatever the flags. */
  lemma DefaultProviderNonAShare(b: DataBundle, financial: Value, request: StockRequest,
                                 fetch: (Kind, string, Option<Frame>) -> Value)
    requires !Markets.IsChineseStock(request.symbol)
    ensures var full := FullBundle(b, financial, request, (k, s, d) => Accessor(k, s, d, fetch).data);
      full.fundFlowData.None? && full.sentimentData.None? && full.newsData.None? && full.quarterlyData.None? && full.riskData.None?
  {
  }

  /** The bundle whose data `execute` analyses. */
  function BundleFor(request: StockRequest, preBundle: Option<DataBundle>, preFinancial: Value, ports: DataPorts): DataBundle
    reads ports
  {
    var b := if preBundle.Some? then preBundle.value else ports.bundleOf(request.symbol, request.period);
    var financial := if preFinancial == VNone then ports.financialOf(request.symbol) else preFinancial;
    FullBundle(b, financial, request, ports.optionalOf)
  }

  /** One flag-gated accessor call of `execute`. */
  method FetchGated(enabled: seq<(string, bool)>, kind: Kind, symbol: string, stockData: Option<Frame>, ports: DataPorts)
    returns (d: Option<Value>)
    modifies ports
    ensures d == Gated(enabled, kind, symbol, stockData, ports.optionalOf)
    ensures ports.log == old(ports.log) + GateFetch(enabled, kind, symbol)
  {
    d := None;
    if Flag(enabled, GateKey(kind)) {
      d := ports.GetOptional(kind, symbol, stockData);
    }
  }

  lemma Regroup(log: seq<Fetch>, p: seq<Fetch>, a: seq<Fetch>, b: seq<Fetch>, c: seq<Fetch>, d: seq<Fetch>, e: seq<Fetch>)
    ensures log + p + a + b + c + d + e == log + (p + (a + b + c + d + e))
  {
  }

  /** Steps 1 to 4 of `execute`: fetch what is not preloaded and the flagged optional blocks, and assemble the full bundle. */
  method GatherBundle(request: StockRequest, preBundle: Option<DataBundle>, preFinancial: Value, ports: DataPorts)
    returns (full: DataBundle)
    modifies ports
    ensures ports.log == old(ports.log) + FetchLog(request, preBundle, preFinancial)
    ensures full == BundleFor(request, preBundle, preFinancial, ports)
  {
    var symbol := request.symbol;
    var enabled := request.enabledAnalysts;
    var bundle: DataBundle;
    if preBundle.None? {
      bundle := ports.GetBundle(symbol, request.period);
    } else {
      bundle := preBundle.value;
    }
    var financial := preFinancial;
    if financial == VNone {
      financial := ports.GetFinancial(symbol);
    }
    ghost var log0 := ports.log;
    var quarterly := FetchGated(enabled, Quarterly, symbol, bundle.stockData, ports);
    var fundFlow := FetchGated(enabled, Kind.FundFlow, symbol, bundle.stockData, ports);
    var sentiment := FetchGated(enabled, Sentiment, symbol, bundle.stockData, ports);
    var news := FetchGated(enabled, News, symbol, bundle.stockData, ports);
    var risk := FetchGated(enabled, Risk, symbol, bundle.stockData, ports);
    ghost var p := (if preBundle.None? then [BundleFetch(symbol, request.period)] else [])
                   + (if preFinancial == VNone then [FinancialFetch(symbol)] else []);
    assert log0 == old(ports.log) + p;
    assert ports.log == log0 + GateFetch(enabled, Quarterly, symbol) + GateFetch(enabled, Kind.FundFlow, symbol)
      + GateFetch(enabled, Sentiment, symbol) + GateFetch(enabled, News, symbol) + GateFetch(enabled, Risk, symbol);
    Regroup(old(ports.log), p, GateFetch(enabled, Quarterly, symbol), GateFetch(enabled, Kind.FundFlow, symbol),
            GateFetch(enabled, Sentiment, symbol), GateFetch(enabled, News, symbol), GateFetch(enabled, Risk, symbol));
    full := DataBundle(bundle.stockInfo, bundle.stockData, bundle.indicators, financial,
                       fundFlow, sentiment, news, quarterly, risk);
  }

  // ---- execute ----

  /** `AnalyzeSingleStockResponse`, with the `AnalysisResult` DTO flattened in. */
  datatype Response = Response(recordId: int, bundle: DataBundle, agentsResults: map<string, Value>,
                               discussion: Value, decision: Value)

  /** The reviews the orchestrator merges for the bundle and roles, starting from an empty aggregate. */
  function ExpectedReviews(info: StockInfo, full: DataBundle, roles: seq<AgentRole>, respond: (nat, Call) -> Result<string>,
                           base: nat, now: Time): map<AgentRole, AgentReview>
  {
    FanOut(map[], roles, PromptsFor(info, full), respond, base, now).reviews
  }

  /** The reply to the discussion call the orchestrator makes after those reviews. */
  ghost function ExpectedDiscussion(info: StockInfo, full: DataBundle, roles: seq<AgentRole>, respond: (nat, Call) -> Result<string>,
                                    base: nat, now: Time): Result<string>
  {
    var st := FanOut(map[], roles, PromptsFor(info, full), respond, base, now);
    respond(base + |st.calls|, DiscussionCall(info, AgentsSummary(st.reviews, AllRoles)))
  }

  /** The decision the orchestrator records after that discussion. */
  ghost function ExpectedDecision(info: StockInfo, full: DataBundle, roles: seq<AgentRole>, respond: (nat, Call) -> Result<string>,
                                  base: nat, now: Time, decode: string -> Result<Value>): Result<Value>
    requires ExpectedDiscussion(info, full, roles, respond, base, now).Ok?
  {
    var st := FanOut(map[], roles, PromptsFor(info, full), respond, base, now);
    DecisionOutcome(info, ExpectedDiscussion(info, full, roles, respond, base, now).value, full, respond, base + |st.calls| + 1, decode)
  }

  /** What a completed orchestrator run recorded: the expected reviews, the discussion reply and the decision. */
  ghost predicate ExpectedRun(analysis: StockAnalysis, info: StockInfo, full: DataBundle, roles: seq<AgentRole>,
                              respond: (nat, Call) -> Result<string>, base: nat, now: Time, decode: string -> Result<Value>)
    reads analysis
  {
    var disc := ExpectedDiscussion(info, full, roles, respond, base, now);
    && analysis.reviews == ExpectedReviews(info, full, roles, respond, base, now)
    && disc.Ok? && analysis.teamDiscussion == VStr(disc.value)
    && ExpectedDecision(info, full, roles, respond, base, now, decode) == Ok(analysis.finalDecision)
  }

  /** A passed run from an empty aggregate recorded the expected reviews, discussion and decision. */
  lemma PerformedRun(analysis: StockAnalysis, info: StockInfo, full: DataBundle, roles: seq<AgentRole>,
                     respond: (nat, Call) -> Result<string>, base: nat, now: Time, decode: string -> Result<Value>)
    requires roles != [] && Performed(analysis, Pass, map[], info, full, roles, respond, base, now, decode)
    ensures ExpectedRun(analysis, info, full, roles, respond, base, now, decode)
  {
    var st := FanOut(map[], roles, PromptsFor(info, full), respond, base, now);
    var disc := ExpectedDiscussion(info, full, roles, respond, base, now);
    assert disc == respond(base + |st.calls|, DiscussionCall(info, AgentsSummary(st.reviews, AllRoles)));
    assert Discussed(analysis, Pass, info, st.reviews, full, respond, base + |st.calls|, decode);
    assert disc.Ok?;
  }

  /**
   * Step 5 of `execute`: the aggregate for the bundle's stock (a price that
   * does not convert raises), the roles of the enabled flags, and one
   * orchestrator run, any raised error propagating.
   */
  method Analyze(request: StockRequest, full: DataBundle, gw: Gateway, decode: string -> Result<Value>,
                 now: Time, generatedId: string) returns (r: Result<StockAnalysis>)
    modifies gw
    ensures StockInfoFromDict(full.stockInfo).Err? ==> r.Err? && gw.log == old(gw.log)
    ensures EnabledRoles(request.enabledAnalysts) == [] ==> r.Err?
    ensures r.Ok? ==>
      && fresh(r.value) && r.value.Valid() && r.value.status == Completed && Truthy(r.value.finalDecision)
      && StockInfoFromDict(full.stockInfo).Ok?
      && r.value.stockInfo == StockInfoFromDict(full.stockInfo).value && r.value.period == request.period
      && ExpectedRun(r.value, r.value.stockInfo, full, EnabledRoles(request.enabledAnalysts), gw.respond, |old(gw.log)|, now, decode)
  {
    var info := StockInfoFromDict(full.stockInfo);
    if info.Err? {
      return Err(info.error);
    }
    var analysis := new StockAnalysis(info.value, None, request.period, now, generatedId);
    var roles := BuildEnabledRoles(request.enabledAnalysts);
    ghost var base := |gw.log|;
    var o := PerformAnalysis(analysis, full, roles, gw, decode, now);
    if o.Fail? {
      return Err(o.error);
    }
    PerformedRun(analysis, info.value, full, roles, gw.respond, base, now, decode);
    r := Ok(analysis);
  }

  /** Steps 6 and 7 of `execute`: save the aggregate, then build the DTO from its reviews. */
  method SaveAndRespond(analysis: StockAnalysis, full: DataBundle, db: Database) returns (resp: Response)
    requires db.Valid()
    modifies db
    ensures db.Valid()
    ensures resp.recordId !in old(db.records)
    ensures db.records == old(db.records)[resp.recordId := SaveRow(analysis.stockInfo, analysis.period, resp.agentsResults,
                                                                    analysis.teamDiscussion, analysis.finalDecision)]
    ensures ResultsOf(resp.agentsResults, analysis.reviews)
    ensures resp.bundle == full && resp.discussion == analysis.teamDiscussion && resp.decision == analysis.finalDecision
  {
    var id := Save(analysis, db);
    var results := CollectResults(analysis.reviews);
    ResultsOfUnique(results, db.records[id]["agents_results"].entries, analysis.reviews);
    ghost var updated := old(db.records)[id := db.records[id]];
    assert db.records.Keys == updated.Keys;
    assert forall k | k in db.records :: db.records[k] == updated[k];
    assert db.records == updated;
    resp := Response(id, full, results, analysis.teamDiscussion, analysis.finalDecision);
  }

  /**
   * `execute`: gather the data, analyse, save, answer. The DTO's results are
   * exactly the saved `agents_results`, and those are the entries of the
   * reviews the orchestrator produced; nothing is saved when an error is
   * raised.
   */
  method Execute(request: StockRequest, preBundle: Option<DataBundle>, preFinancial: Value, ports: DataPorts,
                 gw: Gateway, decode: string -> Result<Value>, db: Database, now: Time, generatedId: string)
    returns (r: Result<Response>)
    requires db.Valid()
    modifies ports, gw, db
    ensures db.Valid()
    ensures ports.log == old(ports.log) + FetchLog(request, preBundle, preFinancial)
    ensures EnabledRoles(request.enabledAnalysts) == [] ==> r.Err?
    ensures r.Err? ==> db.records == old(db.records)
    ensures r.Ok? ==>
      var full := r.value.bundle;
      var info := StockInfoFromDict(full.stockInfo);
      && full == BundleFor(request, preBundle, preFinancial, ports)
      && info.Ok? && Truthy(r.value.decision)
      && r.value.recordId !in old(db.records)
      && db.records == old(db.records)[r.value.recordId := SaveRow(info.value, request.period, r.value.agentsResults,
                                                                    r.value.discussion, r.value.decision)]
      && ResultsOf(r.value.agentsResults, ExpectedReviews(info.value, full, EnabledRoles(request.enabledAnalysts),
                                                          gw.respond, |old(gw.log)|, now))
      && var disc := ExpectedDiscussion(info.value, full, EnabledRoles(request.enabledAnalysts), gw.respond, |old(gw.log)|, now);
         && disc.Ok? && r.value.discussion == VStr(disc.value)
         && ExpectedDecision(info.value, full, EnabledRoles(request.enabledAnalysts), gw.respond, |old(gw.log)|, now, decode)
              == Ok(r.value.decision)
  {
    var full := GatherBundle(request, preBundle, preFinancial, ports);
    var analysis := Analyze(request, full, gw, decode, now, generatedId);
    if analysis.Err? {
      return Err(analysis.error);
    }
    var resp := SaveAndRespond(analysis.value, full, db);
    r := Ok(resp);
  }
}
