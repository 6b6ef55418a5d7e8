# aiagents-stock core, modelled in Dafny

This project models the core of aiagents-stock, a stock-analysis application. A team of
LLM-backed analysts reviews one stock. A "main-force" screener picks stocks that large
funds are buying. A dragon-tiger list ("longhubang") scorer ranks the stocks on the
exchange's daily list of large trades. The model covers how these parts compute, decide,
fail and record. It also states and proves the properties their code promises.

## What is modelled

- **Single-stock analysis.** The pipeline runs in these steps:
  - `AnalysisModel`: the `StockAnalysis` aggregate and its state machine: start, reviews, discussion, decision, failure.
  - `Agents`: the six analyst agents and the prompt arguments each one builds from the data bundle.
  - `Orchestrator`: the fan-out over the enabled agents, the team discussion, and the final decision with its JSON extraction.
  - `AnalysisUseCase`: the use case that maps the request flags onto roles, gates the optional fetches by the analyst flags, runs the analysis, saves it and answers. The market check of those fetches lives in `OptionalData`.
  - `Repository`: the SQLite repository as a save/replay round trip.
  - `AiAnalyzerAdapter`: the AI-analyzer adapter's DTO mapping (infrastructure/adapters/ai_analyzer.py).
  - `LegacyAnalyzer`: the older `DeepSeekAnalyzer` analyzer.
- **Market data.**
  - `Markets`: market classification, code conversions, period and adjustment mapping, and cell conversion.
  - `Indicators`: the provider's bundle composition and latest-indicator signals.
  - `OptionalData`: the optional-data accessor.
  - `AnalysisService`: the web service's guards.
- **Main-force selection.**
  - `MainForceTables`: the shared table handling.
  - `WencaiProvider`: the wencai provider with its query fallback, filters, top-N and domain mapping.
  - `MainForceSelector`: the older selector, a class holding its last tables.
  - `MainForceAnalyzer`: the AI analyzer's stock tables, tolerant JSON parsing and recommendation mapping.
  - `MainForceUseCase`: the use case with its summary, shortlist and save rule.
  - `MainForceReport`: the Markdown report and its bold and table HTML conversion.
- **Longhubang scoring** (`Longhubang`). The five score components, the combined score, the
  grouping of records by stock and the ranking.
- **Web utilities.**
  - `StockList`: the batch stock-list parser.
  - `WebParsing`: number extraction.
  - `ConfigPage`: secret masking.
  - `WebConfig`: the configuration defaults.
  - `MainForceUi`: the main-force page's code cleaning.
- **Shared helpers.** `Wrappers`, `Values`, `Strings`, `Lists`, `Numbers`, `Sorting`,
  `Frames`, `Bundles`, `Llm`.

Boundaries are modelled as follows:

- **Python values.** Dynamic values are a `Value` datatype: None, bool, int, float as a real, str, list and dict.
- **The LLM.** It is an oracle object. The reply to the n-th call is a fixed function of n and of the call, and every call is appended to a log. This lets contracts state exactly which calls go out, in which order, and what becomes of each reply.
- **JSON.** `json.loads` is a parameter `decode`.
- **Effects as parameters.** The wencai service, the data fetchers and the clock are parameters.
- **Thread pools.** They run sequentially, in the enabled-role order.
- **DataFrames.** A DataFrame is a list of column names and a sequence of rows, each a map from column to value; a missing cell is None.
- **SQLite.** The database is an in-memory map from row id to row, with a counter that hands out the next id.
- **Python constructs.** Loops that update variables are methods with loop invariants, and each is proved equal to a specification function. Objects that update their fields are classes: the LLM gateway, the analysis aggregate, the main-force selector, the repository and the data ports.

## Model

| member | source | states |
|---|---|---|
| Agents.StrList | src/aiagents_stock/infrastructure/ai/agents.py:106 | the focus points become a Python list holding each point as a string, in order |
| Agents.Summary | src/aiagents_stock/infrastructure/ai/agents.py:61 | a reply of at most 200 characters is its own summary; a longer one is cut to its first 200 characters followed by "..." |
| Agents.MetricLinesSpec | src/aiagents_stock/infrastructure/ai/agents.py:125-141 | each metric loop emits one line per listed metric the ratios hold, only for those, and never more lines than metrics listed |
| Agents.FinancialLinesShape | src/aiagents_stock/infrastructure/ai/agents.py:116-143 | the ratio text starts with the two header lines and always carries the valuation, profitability and growth headings in that order, each followed by its metrics |
| Agents.AppendMetrics | src/aiagents_stock/infrastructure/ai/agents.py:125-127 | the loop appends the line of each listed metric present in the ratios, in list order |
| Agents.FormatFinancialRatios | src/aiagents_stock/infrastructure/ai/agents.py:116-143 | _format_financial_ratios joins the header and the three metric groups with newlines |
| Agents.LookupArgs | src/aiagents_stock/infrastructure/ai/agents.py:82-94 | every named indicator becomes a template argument read with an "N/A" default |
| Agents.TechnicalArgs | src/aiagents_stock/infrastructure/ai/agents.py:76-95 | the technical prompt names the symbol, passes the current price as the change percentage and reads every indicator with an "N/A" default |
| Agents.FundamentalArgs | src/aiagents_stock/infrastructure/ai/agents.py:146-174 | the fundamental prompt carries the quarterly section, the formatted ratios and P/E and P/B read from the ratios with "N/A" defaults |
| Agents.FundFlowArgs | src/aiagents_stock/infrastructure/ai/agents.py:196-216 | the fund-flow prompt carries its section and turnover and volume ratio read with "N/A" defaults |
| Agents.RiskArgs | src/aiagents_stock/infrastructure/ai/agents.py:238-260 | the risk prompt carries the risk text and beta, 52-week high and low and RSI read with "N/A" defaults |
| Agents.SentimentArgs | src/aiagents_stock/infrastructure/ai/agents.py:282-301 | the sentiment prompt carries the sentiment text |
| Agents.NewsArgs | src/aiagents_stock/infrastructure/ai/agents.py:323-342 | the news prompt carries the news text |
| Agents.PromptArgs | src/aiagents_stock/infrastructure/ai/agents.py:75-342 | every analyst's prompt names the symbol, and each but the technical analyst's carries its data section |
| Agents.TechnicalKeysApart | src/aiagents_stock/infrastructure/ai/agents.py:77-95 | no indicator argument of the technical prompt overrides the symbol or the change percentage |
| Agents.UserPromptOk | src/aiagents_stock/infrastructure/ai/agents.py:146-153 | only the fundamental analyst can fail before its call, and only when financial_ratios is not a dictionary |
| Agents.UserPromptSpec | src/aiagents_stock/infrastructure/ai/agents.py:75-342 | each analyst's prompt names its own template and the symbol and holds its section; the one failure raises the ratios TypeError |
| Agents.FundFlowSectionFallback | src/aiagents_stock/infrastructure/ai/agents.py:199-208 | without successful fund-flow data the section is the fixed volume-based note, so it is never empty |
| Agents.DataTextEmptyUnlessSuccessful | src/aiagents_stock/infrastructure/ai/agents.py:241-334 | the risk, sentiment and news texts are empty exactly when their data is missing or does not report success |
| Agents.FundamentalPrompt | src/aiagents_stock/infrastructure/ai/agents.py:145-174 | the method builds the fundamental prompt, formatting the ratios only when there are any |
| Agents.BuildPrompt | src/aiagents_stock/infrastructure/ai/agents.py:75-342 | the method builds each analyst's prompt as that analyst's prompt function states |
| Agents.Consult | src/aiagents_stock/infrastructure/ai/agents.py:42-66 | one gateway call with the analyst's system prompt; its reply becomes the review, a gateway error propagates, and a failed prompt makes no call |
| Agents.Analyze | src/aiagents_stock/infrastructure/ai/agents.py:69-354 | analyze builds the prompt and makes exactly one logged call, or raises before calling when the prompt fails |
| AiMessage.ToDict | src/aiagents_stock/domain/ai/model.py:14-18 | the dictionary always holds the role and the content, and holds the name exactly when it is truthy |
| AiMessage.FromDict | src/aiagents_stock/domain/ai/model.py:8-12 | a dictionary rebuilds a message exactly when it has a role and a content |
| AiMessage.ToDictRoundTrip | src/aiagents_stock/domain/ai/model.py:14-18 | to_dict loses only an empty name: reading the dictionary back gives the message again unless its name is "" |
| Llm.SystemUserRequest | src/aiagents_stock/infrastructure/ai/agents.py:42-47 | the request holds exactly a system message and then a user message, with the temperature and token limit passed |
| Llm.Gateway.constructor | src/aiagents_stock/infrastructure/ai/llm_client.py:18-19 | a new gateway has made no call yet |
| Llm.Gateway.Send | src/aiagents_stock/infrastructure/ai/llm_client.py:21-34 | call_chat records exactly one call and returns the reply (or raised error) of that call |
| AnalysisModel.RoleKeyRoundTrip | src/aiagents_stock/domain/analysis/model.py:19-26 | each role's value reads back as that role, and only its own value does |
| AnalysisModel.KeyInjective | src/aiagents_stock/domain/analysis/model.py:19-26 | distinct roles have distinct values |
| AnalysisModel.StockInfoFromDict | src/aiagents_stock/domain/analysis/model.py:45-53 | from_dict fails exactly when float() rejects the price; text fields are str() of the value with "" defaults, and a missing or falsy price becomes 0.0 |
| AnalysisModel.StockInfoDictRoundTrip | src/aiagents_stock/domain/analysis/model.py:37-53 | from_dict(asdict(info)) gives back the same stock information |
| AnalysisModel.IsPositive | src/aiagents_stock/domain/analysis/model.py:69-75 | a review is positive exactly when its score converts to a number above 60; no score is not positive; a score float() rejects raises |
| AnalysisModel.StockAnalysis.constructor | src/aiagents_stock/domain/analysis/model.py:97-112 | a new analysis is CREATED with no reviews, discussion or decision, both timestamps at creation, and the given id or else a generated one |
| AnalysisModel.StockAnalysis.Start | src/aiagents_stock/domain/analysis/model.py:121-127 | start moves to IN_PROGRESS from any status and touches only the status and the update time |
| AnalysisModel.StockAnalysis.AddReview | src/aiagents_stock/domain/analysis/model.py:129-139 | add_review is refused exactly when COMPLETED (nothing changes); otherwise it stores or replaces the role's review and moves to IN_PROGRESS |
| AnalysisModel.StockAnalysis.ConductTeamDiscussion | src/aiagents_stock/domain/analysis/model.py:141-146 | the discussion is refused exactly when there is no review; otherwise it is recorded, whatever the status |
| AnalysisModel.StockAnalysis.FinalizeDecision | src/aiagents_stock/domain/analysis/model.py:148-157 | finalising is refused exactly when the discussion is falsy; otherwise it records the decision and moves to COMPLETED |
| AnalysisModel.StockAnalysis.MarkFailed | src/aiagents_stock/domain/analysis/model.py:159-161 | fail moves to FAILED from any status and keeps reviews, discussion and decision |
| Orchestrator.FanOut | src/aiagents_stock/infrastructure/ai/orchestrator.py:67-84 | the fan-out makes at most one call per enabled analyst |
| Orchestrator.FanStepKeys | src/aiagents_stock/infrastructure/ai/orchestrator.py:77-84 | one analyst's turn adds at most its own role's review, filed under that role, and drops no other review |
| Orchestrator.FanStepCalls | src/aiagents_stock/infrastructure/ai/orchestrator.py:73-84 | a turn whose prompt builds makes exactly one call; a reply stores that role's review, a raised error only costs that review |
| Orchestrator.FanOutKeys | src/aiagents_stock/infrastructure/ai/orchestrator.py:67-84 | after the fan-out every review was there before or belongs to an enabled role, filed under its own role, and none is lost |
| Orchestrator.FanStepAnswered | src/aiagents_stock/infrastructure/ai/orchestrator.py:77-82 | an answered turn adds or replaces exactly its role's review, under the analyst's display name, and makes one call |
| Orchestrator.FanOutAllAnswer | src/aiagents_stock/infrastructure/ai/orchestrator.py:67-84 | when every prompt builds and every call is answered, each enabled role ends with its own review and one call is made per enabled entry |
| Orchestrator.AgentsSummaryEmpty | src/aiagents_stock/infrastructure/ai/orchestrator.py:110-113 | the discussion summary is empty exactly when no listed role has a review |
| Orchestrator.AgentsSummaryConcat | src/aiagents_stock/infrastructure/ai/orchestrator.py:110-113 | the summary over two role lists is the first list's summary followed by the second's |
| Orchestrator.AgentsSummaryLocal | src/aiagents_stock/infrastructure/ai/orchestrator.py:110-113 | the summary depends only on the reviews of the listed roles |
| Orchestrator.BuildAgentsSummary | src/aiagents_stock/infrastructure/ai/orchestrator.py:101-113 | the loop concatenates the entries of the present reviews in the fixed role order |
| Orchestrator.WireShape | src/aiagents_stock/infrastructure/ai/orchestrator.py:91-96 | every call is a [system, user] pair with 2000 tokens; only the JSON repair runs at temperature 0.1, the others at 0.7, and an analyst sends its own system prompt and template |
| Orchestrator.JsonBounds | src/aiagents_stock/infrastructure/ai/orchestrator.py:178 | a found span starts at a '{' and ends at a later '}' |
| Orchestrator.JsonBoundsNone | src/aiagents_stock/infrastructure/ai/orchestrator.py:176-181 | _extract_json finds no span exactly when no '{' is followed anywhere by a '}' |
| Orchestrator.JsonBoundsWidest | src/aiagents_stock/infrastructure/ai/orchestrator.py:178 | the greedy match is the widest span: no '{' before it and no '}' after it |
| Orchestrator.FinalDecisionSpec | src/aiagents_stock/infrastructure/ai/orchestrator.py:150-174 | the recorded decision is never falsy: it is the parsed value exactly when that is truthy, otherwise the fallback holding the first reply |
| Orchestrator.NoRepairIgnoresReply | src/aiagents_stock/infrastructure/ai/orchestrator.py:161-168 | when the first parse yields a value, no repair reply affects the decision |
| Orchestrator.ParseDecision | src/aiagents_stock/infrastructure/ai/orchestrator.py:150-168 | one repair call is made exactly when the first extraction found nothing or raised; failures of the repair are absorbed |
| Orchestrator.DecideOn | src/aiagents_stock/infrastructure/ai/orchestrator.py:150-174 | the parse (with its optional repair) decides the recorded decision; finalize_decision fails exactly when the discussion is falsy |
| Orchestrator.MakeFinalDecision | src/aiagents_stock/infrastructure/ai/orchestrator.py:131-174 | one decision call whose error propagates, then the parse and the recorded decision, leaving reviews and discussion alone |
| Orchestrator.ConductTeamDiscussion | src/aiagents_stock/infrastructure/ai/orchestrator.py:98-129 | one discussion call over the ordered summary; its error is the outcome; with reviews the reply is recorded as the discussion, and the run passes exactly when the reply is not empty and the decision call answers, recording the decision `_make_final_decision` makes of that reply and of the repair reply |
| Orchestrator.RunAgent | src/aiagents_stock/infrastructure/ai/orchestrator.py:73-84 | one analyst's call and its add_review advance the aggregate exactly as one fan-out step |
| Orchestrator.RunAgents | src/aiagents_stock/infrastructure/ai/orchestrator.py:67-84 | the loop over the enabled analysts leaves the reviews and the call log of the fan-out |
| Orchestrator.PerformAnalysis | src/aiagents_stock/infrastructure/ai/orchestrator.py:57-89 | start, then the analysts in order (an empty list makes the thread pool raise with nothing called); the reviews are the fan-out's, the next call is the discussion request built from their ordered summary, its reply is the recorded discussion, and a pass records the decision made from the decision call's reply (and the repair reply) |
| LegacyAnalyzer.Rank | src/aiagents_stock/infrastructure/ai/deepseek_agents.py:239-299 | each analyst has one position in the fixed submission order |
| LegacyAnalyzer.OrderAscending | src/aiagents_stock/infrastructure/ai/deepseek_agents.py:239-299 | the submission order lists each analyst once |
| LegacyAnalyzer.AllInOrder | src/aiagents_stock/infrastructure/ai/deepseek_agents.py:239-299 | the submission order lists all six analysts |
| LegacyAnalyzer.AnalystOfKey | src/aiagents_stock/infrastructure/ai/deepseek_agents.py:241-299 | a result key read back names the analyst filed under it |
| LegacyAnalyzer.ResultKeyRoundTrip | src/aiagents_stock/infrastructure/ai/deepseek_agents.py:241-299 | every analyst's result key reads back as that analyst, so distinct analysts never share a key |
| LegacyAnalyzer.KeysDiffer | src/aiagents_stock/infrastructure/ai/deepseek_agents.py:271-289 | the result key differs from the flag key exactly for the risk ("risk" / "risk_management") and sentiment ("sentiment" / "market_sentiment") analysts |
| LegacyAnalyzer.FlagOr | src/aiagents_stock/infrastructure/ai/deepseek_agents.py:241-292 | a flag the dictionary lacks takes its default |
| LegacyAnalyzer.Keep | src/aiagents_stock/infrastructure/ai/deepseek_agents.py:239-299 | filtering keeps exactly the listed analysts that are selected, never adding any |
| LegacyAnalyzer.KeepAscending | src/aiagents_stock/infrastructure/ai/deepseek_agents.py:239-299 | filtering the fixed order keeps it ordered and free of repeats |
| LegacyAnalyzer.RunSet | src/aiagents_stock/infrastructure/ai/deepseek_agents.py:223-299 | the analysts that run are exactly those whose flag is on, with the defaults |
| LegacyAnalyzer.Selected | src/aiagents_stock/infrastructure/ai/deepseek_agents.py:239-299 | the submitted analysts are exactly those that run, once each, in the fixed order |
| LegacyAnalyzer.SelectionDefaults | src/aiagents_stock/infrastructure/ai/deepseek_agents.py:223-292 | without a flag dictionary all six run; with an empty one the four defaults run and sentiment and news do not |
| LegacyAnalyzer.Texts | src/aiagents_stock/infrastructure/ai/deepseek_agents.py:113-128 | the focus areas become a list of strings, in order |
| LegacyAnalyzer.BaseDict | src/aiagents_stock/infrastructure/ai/deepseek_agents.py:36-42 | every agent's dictionary holds exactly its name, role, analysis, focus areas and timestamp |
| LegacyAnalyzer.DataKeyFresh | src/aiagents_stock/infrastructure/ai/deepseek_agents.py:51-74 | an agent's data key never overwrites a common entry |
| LegacyAnalyzer.AgentDict | src/aiagents_stock/infrastructure/ai/deepseek_agents.py:36-214 | the agent's dictionary is the common entries plus, for the agents that have one, its data block under its own key |
| LegacyAnalyzer.DataText | src/aiagents_stock/infrastructure/ai/deepseek_agents.py:81-90 | the data text is empty unless the data is truthy and reports success, then it is the fetcher's formatting; truthy data that is not a dictionary raises at .get |
| LegacyAnalyzer.RiskRequest | src/aiagents_stock/infrastructure/ai/deepseek_agents.py:92-111 | the risk request holds the filled template with the risk text and asks for 6000 tokens |
| LegacyAnalyzer.SentimentRequest | src/aiagents_stock/infrastructure/ai/deepseek_agents.py:146-162 | the sentiment request holds the filled template with the sentiment text and asks for 4000 tokens |
| LegacyAnalyzer.NewsRequest | src/aiagents_stock/infrastructure/ai/deepseek_agents.py:189-205 | the news request holds the filled template with the news text and asks for 4000 tokens |
| LegacyAnalyzer.AgentAnswer | src/aiagents_stock/infrastructure/ai/deepseek_agents.py:31-214 | the first three analysts answer through the client's methods; the risk manager raises without indicators; sentiment without data sends an empty data text |
| LegacyAnalyzer.AgentOutcome | src/aiagents_stock/infrastructure/ai/deepseek_agents.py:31-214 | an agent returns its dictionary exactly when its analysis text is produced |
| LegacyAnalyzer.Outcomes | src/aiagents_stock/infrastructure/ai/deepseek_agents.py:239-299 | every analyst's outcome is recorded |
| LegacyAnalyzer.ResultsOfStep | src/aiagents_stock/infrastructure/ai/deepseek_agents.py:302-307 | gathering one finished agent files its dictionary under its key, or skips it when it raised |
| LegacyAnalyzer.RunMultiAgentAnalysis | src/aiagents_stock/infrastructure/ai/deepseek_agents.py:216-310 | the results hold exactly the selected agents that did not raise, each under its result key, whatever the completion order |
| LegacyAnalyzer.ClientAsShipped | src/aiagents_stock/infrastructure/ai/deepseek_agents.py:31-74 | when the client's analysis methods all raise, only risk, sentiment and news results can exist, and with default flags and indicators the risk result always does |
| LegacyAnalyzer.PresentSet | src/aiagents_stock/infrastructure/ai/deepseek_agents.py:320-343 | the analysts reported are exactly those with a result |
| LegacyAnalyzer.Present | src/aiagents_stock/infrastructure/ai/deepseek_agents.py:320-343 | the analysts with a result are listed once each, in the fixed order |
| LegacyAnalyzer.Names | src/aiagents_stock/infrastructure/ai/deepseek_agents.py:320-343 | the participants are the display names of the analysts present, in order |
| LegacyAnalyzer.Reports | src/aiagents_stock/infrastructure/ai/deepseek_agents.py:320-345 | one report per analyst present, in order |
| LegacyAnalyzer.DiscussionRequest | src/aiagents_stock/infrastructure/ai/deepseek_agents.py:345-362 | the discussion request joins the participants with ", " and the reports with blank lines and asks for 6000 tokens |
| LegacyAnalyzer.DiscussionCoversResults | src/aiagents_stock/infrastructure/ai/deepseek_agents.py:317-345 | the participants and reports cover exactly the analysts with a result, once each |
| LegacyAnalyzer.Client.constructor | src/aiagents_stock/infrastructure/ai/deepseek_agents.py:27-29 | a new client has made no call |
| LegacyAnalyzer.Client.CallApi | src/aiagents_stock/infrastructure/ai/deepseek_agents.py:111 | call_api records the request and returns its answer |
| LegacyAnalyzer.ConductTeamDiscussion | src/aiagents_stock/infrastructure/ai/deepseek_agents.py:312-365 | conduct_team_discussion makes exactly one call, the discussion request, and returns its answer |
| AnalysisUseCase.MappedRole | src/aiagents_stock/application/analysis/use_cases.py:146-165 | the six table keys map first ("risk", "sentiment" and "news" to the longer roles), any other key through the role whose value it is, and a key that is neither maps to nothing |
| AnalysisUseCase.EnabledRoles | src/aiagents_stock/application/analysis/use_cases.py:155-165 | the role list has at most one role per flag entry |
| AnalysisUseCase.EnabledRolesSound | src/aiagents_stock/application/analysis/use_cases.py:155-165 | every listed role comes from an enabled key that names it; disabled and unknown keys contribute nothing |
| AnalysisUseCase.EnabledRolesComplete | src/aiagents_stock/application/analysis/use_cases.py:155-165 | every enabled key that names a role contributes that role |
| AnalysisUseCase.RiskListedTwice | src/aiagents_stock/application/analysis/use_cases.py:155-165 | with both "risk" and "risk_management" enabled the risk role is listed twice |
| AnalysisUseCase.BuildEnabledRoles | src/aiagents_stock/application/analysis/use_cases.py:155-165 | the loop builds the roles of the enabled flags, in dict order |
| AnalysisUseCase.DataPorts.constructor | src/aiagents_stock/application/analysis/use_cases.py:50-64 | new ports have been called for nothing yet |
| AnalysisUseCase.DataPorts.GetBundle | src/aiagents_stock/application/analysis/use_cases.py:89-91 | get_stock_data_bundle is one logged call answering the provider's bundle |
| AnalysisUseCase.DataPorts.GetFinancial | src/aiagents_stock/application/analysis/use_cases.py:96 | get_financial_data is one logged call answering the provider's payload |
| AnalysisUseCase.DataPorts.GetOptional | src/aiagents_stock/application/analysis/use_cases.py:99-123 | each optional accessor is one logged call answering the provider's block |
| AnalysisUseCase.GateFetch | src/aiagents_stock/application/analysis/use_cases.py:99-123 | an optional block is fetched once exactly when its flag is on |
| AnalysisUseCase.OptionalFetchesSpec | src/aiagents_stock/application/analysis/use_cases.py:99-123 | quarterly follows "fundamental", fund flow "technical", sentiment, news and risk their own flags; each is fetched at most once, for the request's symbol |
| AnalysisUseCase.PreloadedNotFetched | src/aiagents_stock/application/analysis/use_cases.py:86-96 | the bundle and the financial data are fetched exactly when they were not preloaded |
| AnalysisUseCase.FullBundle | src/aiagents_stock/application/analysis/use_cases.py:125-136 | the full bundle copies info, history and indicators, carries the financial payload, and holds no block whose flag is off |
| AnalysisUseCase.DefaultProviderNonAShare | src/aiagents_stock/application/analysis/use_cases.py:99-123 | with the default optional-data provider a symbol that is not an A-share gets no optional block whatever the flags |
| AnalysisUseCase.FetchGated | src/aiagents_stock/application/analysis/use_cases.py:99-123 | one gated accessor call: fetched and logged when the flag is on, none otherwise |
| AnalysisUseCase.GatherBundle | src/aiagents_stock/application/analysis/use_cases.py:82-136 | steps 1 to 4 fetch what is not preloaded and the flagged blocks, in order, and assemble the full bundle |
| AnalysisUseCase.Analyze | src/aiagents_stock/application/analysis/use_cases.py:138-172 | the aggregate is built from the bundle's info and the request's period; a price that does not convert raises before any call; no enabled role raises; on success it is COMPLETED with the orchestrator's reviews, the discussion reply to their summary and the decision made from the decision reply |
| AnalysisUseCase.SaveAndRespond | src/aiagents_stock/application/analysis/use_cases.py:174-197 | the aggregate is saved once under a fresh id, and the response's agents_results has one entry per review keyed by role value with the raw output as analysis |
| AnalysisUseCase.Execute | src/aiagents_stock/application/analysis/use_cases.py:66-197 | execute fetches, analyses, saves once and answers with the saved id, the full bundle, the reviews' entries, the discussion reply and the decision made from the decision reply; nothing is saved when a step raises |
| AnalysisUseCase.Regroup | src/aiagents_stock/application/analysis/use_cases.py:99-123 | the fetch log of the five gated accessors can be regrouped into the optional part |
| AnalysisService.ApiKeyConfigured | src/aiagents_stock/web/services/analysis_service.py:25-29 | the key counts as configured exactly when it is present and not blank |
| AnalysisService.StockDataUncached | src/aiagents_stock/web/services/analysis_service.py:32-45 | a history error gives neither history nor indicators; otherwise the history with indicator columns and its snapshot |
| AnalysisService.ServiceDropsError | src/aiagents_stock/web/services/analysis_service.py:39-45 | on a history error the web service drops the error where the providers keep it as the indicators; on success both keep the computed history |
| AnalysisService.OptionalUncached | src/aiagents_stock/web/services/analysis_service.py:104-191 | the uncached fetchers answer nothing for a symbol that is not an A-share, nothing for sentiment without history, and otherwise the fetcher's answer as it is |
| AnalysisService.ProviderFiltersService | src/aiagents_stock/infrastructure/optional_data_provider.py:29-84 | the optional-data provider calls its fetcher exactly when the web fetcher does and keeps the answer exactly when it is truthy |
| OptionalData.Accessor | src/aiagents_stock/infrastructure/optional_data_provider.py:29-84 | each accessor answers None without calling for a symbol that is not an A-share (and for sentiment without history); otherwise it calls its fetcher once and wraps the answer exactly when it is truthy |
| Indicators.ComposeBundle | src/aiagents_stock/infrastructure/adapters/market_data_provider.py:30-70 | a history error gives no history and the error as indicators; an indicator error keeps the raw history with the error; otherwise the computed history and the snapshot or its error |
| Indicators.CalculateIndicators | src/aiagents_stock/infrastructure/adapters/market_data_provider.py:93-100 | fewer than 30 rows is an error; otherwise the indicator columns are computed |
| Indicators.BarOf | src/aiagents_stock/infrastructure/adapters/market_data_provider.py:148-188 | a bar holds the cells of the Close, MA, RSI, MACD, MACD_signal, MACD_hist, K, D and J columns of the last row, each a number or NaN |
| Indicators.BarOfColumns | src/aiagents_stock/infrastructure/adapters/market_data_provider.py:148-188 | the last row gives a bar exactly when every column the snapshot reads is present and holds a number or NaN |
| Indicators.CellFixed1 | src/aiagents_stock/infrastructure/adapters/market_data_provider.py:186 | a cell printed with one decimal is "nan" exactly when it is NaN |
| Indicators.CellFixed2 | src/aiagents_stock/infrastructure/adapters/market_data_provider.py:187 | a cell printed with two decimals is "nan" exactly when it is NaN |
| Indicators.CellValue | src/aiagents_stock/infrastructure/adapters/market_data_provider.py:182-185 | float() of a cell is its number, and NaN becomes the model's missing number |
| Indicators.PrevOf | src/aiagents_stock/infrastructure/adapters/market_data_provider.py:149-171 | the previous row is usable exactly when its Close, MACD, MACD_signal, K and D columns are present and hold a number or NaN |
| Indicators.PrevOfBar | src/aiagents_stock/infrastructure/adapters/market_data_provider.py:149 | a usable last row also serves as the previous row of a one-row frame |
| Indicators.Change | src/aiagents_stock/infrastructure/adapters/market_data_provider.py:182 | the change from the previous close is a number exactly when both closes are numbers and the previous one is not zero |
| Indicators.Trend | src/aiagents_stock/infrastructure/adapters/market_data_provider.py:151-156 | bullish exactly when MA5 > MA20 > MA60, bearish exactly when MA5 < MA20 < MA60, sideways otherwise; every comparison with NaN is false, so a NaN average gives sideways |
| Indicators.MacdSignals | src/aiagents_stock/infrastructure/adapters/market_data_provider.py:161-165 | at most one MACD signal: the golden cross exactly when MACD crosses above its signal line, the death cross exactly when it crosses below; none when one of the four cells is NaN |
| Indicators.KdjSignals | src/aiagents_stock/infrastructure/adapters/market_data_provider.py:167-171 | at most one KDJ signal: golden exactly when K crosses above D, death exactly when K crosses below D; none when one of the four cells is NaN |
| Indicators.RsiSignals | src/aiagents_stock/infrastructure/adapters/market_data_provider.py:173-177 | at most one RSI signal: overbought exactly above 70, oversold exactly below 30, none for a NaN RSI |
| Indicators.Signals | src/aiagents_stock/infrastructure/adapters/market_data_provider.py:158-177 | at most three signals in MACD, KDJ, RSI order; no pair of opposite signals fires together |
| Indicators.NoCrossWithoutHistory | src/aiagents_stock/infrastructure/adapters/market_data_provider.py:149 | a bar compared with itself gives no cross signal |
| Indicators.LatestIndicators | src/aiagents_stock/infrastructure/adapters/market_data_provider.py:142-194 | an empty frame is an error; otherwise the snapshot fails, with the prefixed exception text, exactly when the last row lacks one of its eleven columns (or holds a non-numeric cell) or the previous row lacks one of its five; NaN cells raise nothing; a snapshot carries the date text, the last row's close, averages and RSI, its KDJ and MACD texts, its trend, the signals against the previous row and the change from the previous close; a one-row frame has change 0.0 and only RSI signals |
| Indicators.ShortHistorySnapshot | src/aiagents_stock/infrastructure/adapters/market_data_provider.py:142-191 | a history too short for MA60, whose last row holds NaN there, still gives a snapshot, with a sideways trend and the NaN average |
| Indicators.SnapshotDict | src/aiagents_stock/infrastructure/adapters/market_data_provider.py:179-191 | the indicators dictionary has exactly the keys date, close, change_percent, ma5, ma20, ma60, rsi, kdj, macd, trend and signals, holding the snapshot's values, with NaN as the missing number |
| Indicators.AdapterBundleGuards | src/aiagents_stock/infrastructure/adapters/market_data_provider.py:40-70 | a history under 30 rows is kept raw with the shortage error, and an empty computed frame reports the empty-data error |
| Repository.Database.constructor | src/aiagents_stock/infrastructure/persistence/sqlite/analysis_repository.py:22 | a new database stores no row |
| Repository.Database.SaveAnalysis | src/aiagents_stock/infrastructure/persistence/sqlite/analysis_repository.py:41-49 | save_analysis stores the row under a fresh id and returns that id, leaving the other rows alone |
| Repository.ResultsOfUnique | src/aiagents_stock/infrastructure/persistence/sqlite/analysis_repository.py:27-36 | the reviews determine their agents_results completely |
| Repository.ResultsOfExtend | src/aiagents_stock/infrastructure/persistence/sqlite/analysis_repository.py:28-36 | filing one more review's entry under its role's value keeps agents_results exact for the reviews handled so far |
| Repository.CollectResults | src/aiagents_stock/infrastructure/persistence/sqlite/analysis_repository.py:27-36 | the loop gives one entry per review, keyed by role value, holding name, raw output, focus areas and time stamp |
| Repository.Save | src/aiagents_stock/infrastructure/persistence/sqlite/analysis_repository.py:24-55 | save stores one row with symbol, name, period, stock information, one entry per review, discussion and decision under a fresh id and returns it; other rows stay |
| Repository.RowPeriod | src/aiagents_stock/infrastructure/persistence/sqlite/analysis_repository.py:81 | a missing or falsy period reads as "1y"; a non-empty text period reads as itself |
| Repository.RestoredFromUnique | src/aiagents_stock/infrastructure/persistence/sqlite/analysis_repository.py:84-97 | the replayed reviews are determined by the stored entries |
| Repository.EveryRoleListed | src/aiagents_stock/infrastructure/persistence/sqlite/analysis_repository.py:84-97 | the role list covers every role |
| Repository.RestoredReviews | src/aiagents_stock/infrastructure/persistence/sqlite/analysis_repository.py:84-97 | the reviews replayed from entries are those of the keys that name a role with a readable entry |
| Repository.RestoredFromStep | src/aiagents_stock/infrastructure/persistence/sqlite/analysis_repository.py:86-97 | one more entry adds its role's review when its key names a role and the entry is readable, and nothing otherwise |
| Repository.RestoreEntry | src/aiagents_stock/infrastructure/persistence/sqlite/analysis_repository.py:86-97 | one pass of the review loop skips a key that names no role, adds the entry's review otherwise (its summary the first 200 characters or items of the analysis, which may be text or a list), and raises on an entry that is not a dict or whose analysis cannot be sliced |
| Repository.Head200 | src/aiagents_stock/infrastructure/persistence/sqlite/analysis_repository.py:90 | `[:200]` keeps the kind of the value and gives a prefix of it that is 200 long or the whole value |
| Repository.RestoreReviews | src/aiagents_stock/infrastructure/persistence/sqlite/analysis_repository.py:84-97 | the review loop succeeds exactly when every role entry is a dict whose analysis is text or a list, and then restores exactly those reviews; the status stays CREATED with none |
| Repository.RestoreOutcome | src/aiagents_stock/infrastructure/persistence/sqlite/analysis_repository.py:99-113 | a truthy discussion is replayed (a dict gives its content) and fails without reviews; a truthy decision is replayed and fails without a discussion |
| Repository.FindById | src/aiagents_stock/infrastructure/persistence/sqlite/analysis_repository.py:57-115 | find_by_id answers None for an id int() rejects and for a missing or empty row, otherwise the aggregate replayed from the row (list-valued analyses included) or the error the replay raises |
| Repository.EntryRoundTrip | src/aiagents_stock/infrastructure/persistence/sqlite/analysis_repository.py:27-36 | a saved review entry whose raw output is text or a list reads back with the same raw output, agent name and focus areas, its first 200 characters or items as summary and the whole output as full text |
| Repository.EntryUnreadable | src/aiagents_stock/infrastructure/persistence/sqlite/analysis_repository.py:27-36 | a saved entry is readable exactly when the review's raw output is text or a list |
| Repository.SavedRowInfo | src/aiagents_stock/infrastructure/persistence/sqlite/analysis_repository.py:39-45 | the stock information of a saved row reads back unchanged |
| Repository.SavedRowParts | src/aiagents_stock/infrastructure/persistence/sqlite/analysis_repository.py:41-49 | the entries, discussion and decision of a saved row read back unchanged, and an empty period reads back as "1y" |
| Repository.SavedReviews | src/aiagents_stock/infrastructure/persistence/sqlite/analysis_repository.py:27-36 | every saved entry of a review with text or list output is readable and replays to a review of the same role with the same raw output, agent name and focus areas |
| Repository.SaveReplayRoundTrip | src/aiagents_stock/infrastructure/persistence/sqlite/analysis_repository.py:24-115 | replaying a saved row gives back the stock information, the period, the reviewed roles with their texts, the truthy discussion and decision, and the matching status |
| AiAnalyzerAdapter.AdapterRoles | src/aiagents_stock/infrastructure/adapters/ai_analyzer.py:45-52 | at most one role per flag entry |
| AiAnalyzerAdapter.AdapterRolesSound | src/aiagents_stock/infrastructure/adapters/ai_analyzer.py:45-52 | every role passed on comes from an enabled flag whose key is exactly that role's value |
| AiAnalyzerAdapter.AdapterRolesComplete | src/aiagents_stock/infrastructure/adapters/ai_analyzer.py:45-52 | every enabled flag whose key is a role value contributes that role |
| AiAnalyzerAdapter.ShortKeysDropped | src/aiagents_stock/infrastructure/adapters/ai_analyzer.py:45-52 | the short keys "risk", "sentiment" and "news" select nothing here, though the use case maps them to roles |
| AiAnalyzerAdapter.BuildAdapterRoles | src/aiagents_stock/infrastructure/adapters/ai_analyzer.py:45-52 | the loop collects the roles of the enabled flags that are role values, in flag order |
| AiAnalyzerAdapter.DtoEntry | src/aiagents_stock/infrastructure/adapters/ai_analyzer.py:70-76 | the DTO entry is the saved entry plus the role's value under "agent_role" |
| AiAnalyzerAdapter.DtoMatchesSaved | src/aiagents_stock/infrastructure/adapters/ai_analyzer.py:67-82 | the DTO and the saved agents_results of the same reviews have the same keys and agree apart from "agent_role" |
| AiAnalyzerAdapter.DtoOfExtend | src/aiagents_stock/infrastructure/adapters/ai_analyzer.py:68-82 | filing one more review's DTO entry keeps the DTO exact for the reviews handled so far |
| AiAnalyzerAdapter.MapToDto | src/aiagents_stock/infrastructure/adapters/ai_analyzer.py:64-88 | _map_to_dto gives one entry per review under its role's value and passes discussion and decision through unchanged |
| AiAnalyzerAdapter.Analyze | src/aiagents_stock/infrastructure/adapters/ai_analyzer.py:26-62 | the aggregate comes from the bundle's info; a price that does not convert raises before any call; no role-valued flag raises; otherwise the DTO of the orchestrator's reviews, the discussion reply to their summary and the truthy decision made from the decision reply |
| WebConfig.DefaultPeriodOffered | src/aiagents_stock/web/config.py:10-11 | the default period is one of the period options |
| WebConfig.Defaults | src/aiagents_stock/web/config.py:25-30 | by default the first four analysts are on and sentiment and news are off |
| WebConfig.AsDict | src/aiagents_stock/web/config.py:32-42 | as_dict has exactly the six keys, in order, each holding its field's value |
| WebConfig.FlagKeysDistinct | src/aiagents_stock/web/config.py:35-42 | the six keys are distinct |
| WebConfig.FlagOrAt | src/aiagents_stock/web/config.py:32-42 | reading a key gives the value at its first position |
| WebConfig.AsDictGet | src/aiagents_stock/web/config.py:32-42 | each key of as_dict reads back its field, whatever the default |
| WebConfig.AsDictRoundTrip | src/aiagents_stock/web/config.py:22-42 | reading as_dict back gives the record, and an empty dictionary reads as the defaults |
| WebConfig.EnabledRolesSnoc | src/aiagents_stock/application/analysis/use_cases.py:155-165 | appending one flag appends that flag's roles |
| WebConfig.AsDictRolesHead | src/aiagents_stock/web/config.py:35-38 | the first three flags give the technical, fundamental and fund-flow roles that are on |
| WebConfig.AsDictRoles | src/aiagents_stock/web/config.py:32-42 | the use case turns as_dict into the roles of the fields that are on, in field order |
| WebConfig.AsDictSelected | src/aiagents_stock/web/config.py:32-42 | the legacy analyzer runs exactly the analysts whose field is on |
| WebConfig.DefaultRoles | src/aiagents_stock/web/config.py:25-30 | the default flags give the technical, fundamental, fund-flow and risk roles in the use case |
| WebConfig.DefaultAnalysts | src/aiagents_stock/web/config.py:25-30 | the default flags agree with the legacy analyzer's own defaults |
| WebParsing.CleanSpec | src/aiagents_stock/web/utils/parsing.py:9-12 | cleaning leaves no currency mark and no surrounding whitespace, adds no character and keeps every other non-whitespace character |
| WebParsing.RunsIffDigit | src/aiagents_stock/web/utils/parsing.py:6 | the number pattern matches somewhere exactly when the text holds a digit |
| WebParsing.RunsParse | src/aiagents_stock/web/utils/parsing.py:6 | every match of the number pattern reads back through float() as a non-negative number |
| WebParsing.FirstFloatSpec | src/aiagents_stock/web/utils/parsing.py:15-25 | a number comes out exactly when the text holds a digit, and it is never negative |
| WebParsing.CleanKeepsDigits | src/aiagents_stock/web/utils/parsing.py:9-12 | cleaning neither adds nor removes digits |
| WebParsing.DigitsOneRun | src/aiagents_stock/web/utils/parsing.py:6 | a run of digits is one whole match |
| WebParsing.MinusIgnored | src/aiagents_stock/web/utils/parsing.py:15-25 | a leading minus is ignored: "-" followed by digits reads as the positive value |
| WebParsing.RunsBreak | src/aiagents_stock/web/utils/parsing.py:6 | a character that ends matches splits the matches of a text into those before and after it |
| WebParsing.RunsStrip | src/aiagents_stock/web/utils/parsing.py:6 | stripping whitespace keeps the matches |
| WebParsing.RunCountStripped | src/aiagents_stock/web/utils/parsing.py:39-45 | dropping blank parts and stripping the rest keeps the number of matches |
| WebParsing.FloatRangeSpec | src/aiagents_stock/web/utils/parsing.py:28-47 | both ends come out exactly when the cleaned text holds two matches, and the lower end is then what extract_first_float reads |
| WebParsing.RangeFromTwoRuns | src/aiagents_stock/web/utils/parsing.py:33-37 | with two matches the range is the first two matches, both non-negative |
| WebParsing.RangeNeedsTwoRuns | src/aiagents_stock/web/utils/parsing.py:39-45 | the separator fallback never yields both ends when there are fewer than two matches |
| WebParsing.NoSeparatorNoRange | src/aiagents_stock/web/utils/parsing.py:28-47 | without two matches and without any separator the range is (None, None) |
| StockList.StripContained | src/aiagents_stock/web/utils/parsers.py:7 | strip() returns a slice of its input |
| StockList.StripIdempotent | src/aiagents_stock/web/utils/parsers.py:7 | strip() is idempotent |
| StockList.SplitContained | src/aiagents_stock/web/utils/parsers.py:7 | every piece of a split on one character occurs in the text |
| StockList.SplitWsContained | src/aiagents_stock/web/utils/parsers.py:15-16 | every word of a whitespace split occurs in the text |
| StockList.StrippedNonBlankFrom | src/aiagents_stock/web/utils/parsers.py:13-18 | each kept code is the stripped form of one of the parts |
| StockList.LineCodes | src/aiagents_stock/web/utils/parsers.py:13-18 | the codes of one line are non-empty, stripped and occur in the line; codes cut on commas hold no comma and codes cut on spaces hold no whitespace |
| StockList.RawCodesFrom | src/aiagents_stock/web/utils/parsers.py:9-18 | every raw code is non-empty, stripped and occurs in one of the lines |
| StockList.Dedup | src/aiagents_stock/web/utils/parsers.py:20-26 | keeps each code the first time it occurs, so the result has no repeats and the same codes as the input |
| StockList.DedupDistinct | src/aiagents_stock/web/utils/parsers.py:20-26 | a list without repeats is unchanged by de-duplication |
| StockList.DedupIdempotent | src/aiagents_stock/web/utils/parsers.py:20-26 | de-duplication is idempotent |
| StockList.ParseSpecProps | src/aiagents_stock/web/utils/parsers.py:1-26 | blank input gives nothing; otherwise every code is non-empty, stripped, free of line breaks, occurs in the input and appears once, and the codes are exactly the raw codes of the lines; the copy of the parser in web/services/analysis_service.py (lines 55-80) is the same code and keeps the same promises |
| StockList.CollectRaw | src/aiagents_stock/web/utils/parsers.py:9-18 | the first loop builds the raw codes of the lines in order |
| StockList.KeepFirst | src/aiagents_stock/web/utils/parsers.py:20-26 | the second loop keeps the first occurrence of each code |
| StockList.ParseStockList | src/aiagents_stock/web/utils/parsers.py:1-26 | the parser returns the specified codes: nothing for blank input, else the de-duplicated raw codes |
| ConfigPage.MaskSecret | src/aiagents_stock/web/pages/config_page.py:9-16 | empty stays empty, up to 12 characters become "***", longer secrets keep their length, first six and last four characters and star the rest |
| ConfigPage.MaskHides | src/aiagents_stock/web/pages/config_page.py:9-16 | a masked secret shows no character beyond the first six and last four |
| ConfigPage.MaskIdempotent | src/aiagents_stock/web/pages/config_page.py:9-16 | masking a masked secret changes nothing |
| ConfigPage.ShowCases | src/aiagents_stock/web/pages/config_page.py:204-210 | missing keys show as "", revealed values and non-secret keys as stored, short secrets as "***", long secrets keep their length |
| MainForceUi.CleanStockCode | src/aiagents_stock/features/main_force/main_force_ui.py:22-26 | the result holds no '.', is the code itself when it has none, and else the text before the first '.' |
| MainForceUi.CleanIdempotent | src/aiagents_stock/features/main_force/main_force_ui.py:22-26 | cleaning is idempotent and only shortens the code to a prefix |
| MainForceUi.CleanAllIsMapped | src/aiagents_stock/features/main_force/main_force_ui.py:108-114 | cleaning the pieces is cleaning the non-blank stripped pieces one by one |
| MainForceUi.CleanedCodes | src/aiagents_stock/features/main_force/main_force_ui.py:108-114 | no cleaned code holds a '.' or a ',' since newlines and full-width commas count as commas |
| MainForceUi.CleanedInput | src/aiagents_stock/features/main_force/main_force_ui.py:106-114 | the text sent to batch analysis carries no '.' |
| MainForceUi.BlankSendsNothing | src/aiagents_stock/features/main_force/main_force_ui.py:108-114 | blank text sends no code and an empty string |
| Markets.IsHkStock | src/aiagents_stock/infrastructure/data_sources/data_source_manager.py:29-37 | an HK prefix in any letter case makes a Hong Kong code, a digit string is one exactly when it has at most five digits, and a six-digit A-share code never is; the copy in infrastructure/market_data_provider.py (lines 35-44) is the same classification |
| Markets.MarketOf | src/aiagents_stock/infrastructure/market_data_provider.py:103-111 | the dispatch picks A-share exactly for six digits, Hong Kong exactly for Hong Kong codes, and US for everything else |
| Markets.NormalizeHkCode | src/aiagents_stock/infrastructure/data_sources/data_source_manager.py:40-46 | the HK prefix is dropped and the code is padded to five characters; longer codes are kept, and a numeric code keeps its value |
| Markets.LeadingZeros | src/aiagents_stock/infrastructure/data_sources/data_source_manager.py:40-46 | padding with leading zeros does not change the value of a digit string |
| Markets.ChinaLookbackDays | src/aiagents_stock/infrastructure/data_sources/data_source_manager.py:103-111 | the A-share history window is 365, 180 or 90 days, and a year for any period other than 6mo and 3mo |
| Markets.HkLookbackDays | src/aiagents_stock/infrastructure/data_sources/data_source_manager.py:147-157 | the Hong Kong history window is 30 days exactly for 1mo |
| Markets.LookbacksAgree | src/aiagents_stock/infrastructure/data_sources/data_source_manager.py:103-157 | the two fetchers choose the same window for every period except 1mo |
| Markets.TsExchange | src/aiagents_stock/infrastructure/data_sources/data_source_manager.py:785-797 | the exchange suffix is SH exactly for codes starting with 6, BJ exactly for 8 or 4, and SZ otherwise |
| Markets.ToTsCode | src/aiagents_stock/infrastructure/data_sources/data_source_manager.py:772-797 | a six-character code gains "." and one of SH, SZ, BJ; anything else is unchanged |
| Markets.FromTsCode | src/aiagents_stock/infrastructure/data_sources/data_source_manager.py:799-812 | the result holds no '.', and a code without '.' is unchanged |
| Markets.TsCodeRoundTrip | src/aiagents_stock/infrastructure/data_sources/data_source_manager.py:772-812 | converting a code without '.' to the Tushare form and back returns the code |
| Markets.HistDates | src/aiagents_stock/infrastructure/data_sources/data_source_manager.py:500-508 | given dates lose every '-', a missing start stays missing and a missing or empty end becomes today's date |
| Markets.TushareAdjust | src/aiagents_stock/infrastructure/data_sources/data_source_manager.py:554-555 | "" means no adjustment, qfq and hfq are kept, and anything else becomes qfq |
| Markets.CleanNumberText | src/aiagents_stock/infrastructure/market_data_provider.py:751 | a cleaned cell holds no '%' and no ',' and is no longer than the cell |
| Markets.SafeConvert | src/aiagents_stock/infrastructure/market_data_provider.py:746-755 | None and "" become "N/A", non-text values pass unchanged, and text without '%' and ',' becomes a float when it reads as one and stays cleaned text otherwise |
| Markets.AcceptRatio | src/aiagents_stock/infrastructure/market_data_provider.py:178-193 | a valuation cell replaces the current value only when it is truthy, not "-", and reads as a number in (0, bound] |
| Markets.ChineseRatio | src/aiagents_stock/infrastructure/market_data_provider.py:162-256 | on the akshare and Baidu path the A-share PE or PB is "N/A" or a number in (0, bound], and "N/A" only when the individual cell and the Baidu cell were not accepted; when the individual call raised and the Tushare daily_basic row was read, a value other than "N/A" is stored unchecked and skips the Baidu correction |
| Markets.FinancialData | src/aiagents_stock/infrastructure/market_data_provider.py:103-113 | the financial data is the market fetcher's answer, and an error becomes a dictionary whose only key is "error" with the prefixed message |
| MainForceTables.FindIndex | src/aiagents_stock/infrastructure/main_force/provider/pywencai_provider.py:306-312 | the patterns are tried in order and, for each, the columns in order: the answer contains its pattern, no earlier pattern matches any column and no earlier column matches the chosen pattern; None exactly when nothing matches |
| MainForceTables.FindColumn | src/aiagents_stock/infrastructure/main_force/provider/pywencai_provider.py:306-312 | the found column is one of the columns and contains one of the patterns; None exactly when no column contains any pattern |
| MainForceTables.FindColumnPriority | src/aiagents_stock/infrastructure/main_force/provider/pywencai_provider.py:306-312 | a column containing a pattern is chosen when no earlier pattern matches anything and no earlier column matches this one |
| MainForceTables.FirstMatch | src/aiagents_stock/features/main_force/main_force_selector.py:252 | the first column containing any of the patterns, a column that contains one; None when none does |
| MainForceTables.ParseUnit | src/aiagents_stock/infrastructure/main_force/provider/pywencai_provider.py:281-294 | non-text cells are left alone and text is read after strip() |
| MainForceTables.ParseUnitCases | src/aiagents_stock/infrastructure/main_force/provider/pywencai_provider.py:281-294 | a text with 亿 is its number times 10^8, with only 万 times 10^4, with neither the stripped text; a unit always gives a number, 0.0 when the rest does not read |
| MainForceTables.MaxOf | src/aiagents_stock/infrastructure/main_force/provider/pywencai_provider.py:303 | the maximum bounds every number of the column and is one of them |
| MainForceTables.InYi | src/aiagents_stock/infrastructure/main_force/provider/pywencai_provider.py:302-304 | a column whose maximum exceeds 100000 is divided by 10^8 cell by cell, any other column is kept |
| MainForceTables.NormalizeCurrency | src/aiagents_stock/infrastructure/main_force/provider/pywencai_provider.py:276-304 | a missing column leaves the table unchanged; a present one is rewritten as its parsed numbers, unreadable cells 0, scaled to 亿 when in yuan; columns and row count are kept |
| MainForceTables.NormalizedNumeric | src/aiagents_stock/infrastructure/main_force/provider/pywencai_provider.py:296-299 | after normalising every cell of the column is a number and every other cell of each row is unchanged |
| MainForceTables.NormalizedScale | src/aiagents_stock/infrastructure/main_force/provider/pywencai_provider.py:302-304 | a column in yuan ends up with each cell its reading divided by 10^8 |
| MainForceTables.NormalizeIdempotent | src/aiagents_stock/infrastructure/main_force/provider/pywencai_provider.py:276-304 | normalising a second time changes nothing when the first pass left the maximum at or below 100000 |
| MainForceTables.SafeFloat | src/aiagents_stock/infrastructure/main_force/provider/pywencai_provider.py:314-320 | None reads 0.0, text is read after dropping '%', other values through float(), and 0.0 whenever that fails |
| MainForceTables.SafeFloatPercent | src/aiagents_stock/infrastructure/main_force/provider/pywencai_provider.py:314-320 | a percentage text of digits reads as its number |
| MainForceTables.KeysInOrder | src/aiagents_stock/infrastructure/main_force/provider/pywencai_provider.py:140 | the combined key list holds exactly the keys seen and keeps the earlier keys first |
| MainForceTables.RecordColumns | src/aiagents_stock/infrastructure/main_force/provider/pywencai_provider.py:140 | the columns of a table built from records are exactly the keys of the records |
| MainForceTables.RowOf | src/aiagents_stock/infrastructure/main_force/provider/pywencai_provider.py:140 | a record becomes a row with a cell for every column, NaN where the record has no entry |
| MainForceTables.FrameOf | src/aiagents_stock/infrastructure/main_force/provider/pywencai_provider.py:140 | a table built from records has one row per record, in order, with the records' columns |
| MainForceTables.ConvertToDataFrame | src/aiagents_stock/infrastructure/main_force/provider/pywencai_provider.py:128-149 | a DataFrame is kept, a dict's tableV1 table is taken, any other dict is one row, a list gives one row per record, and None or anything else gives no table; the selector's copy in features/main_force/main_force_selector.py (lines 145-177) is the same conversion |
| MainForceTables.Queries | src/aiagents_stock/infrastructure/main_force/provider/pywencai_provider.py:76-90 | four queries are tried, plans 1 to 4 in order, all with the same start date and capitalisation bounds |
| MainForceTables.Usable | src/aiagents_stock/infrastructure/main_force/provider/pywencai_provider.py:97-112 | an attempt counts exactly when it did not raise and gave a non-empty table, and then that table is the answer |
| MainForceTables.FirstUsable | src/aiagents_stock/infrastructure/main_force/provider/pywencai_provider.py:92-117 | the plan chosen is the first whose attempt counts; none is chosen only when every attempt failed |
| MainForceTables.Head | src/aiagents_stock/infrastructure/main_force/provider/pywencai_provider.py:215 | head(n) gives the first n rows, or all of them when there are fewer, and is always a prefix; the selector's top rows (features/main_force/main_force_selector.py line 327) are a prefix in the same way |
| WencaiProvider.FetchRawData | src/aiagents_stock/infrastructure/main_force/provider/pywencai_provider.py:57-126 | success exactly when some query gives a usable table; the first such table is returned after exactly the queries up to it were sent; otherwise every query was sent and the failure message comes back |
| WencaiProvider.NumericCell | src/aiagents_stock/infrastructure/main_force/provider/pywencai_provider.py:171 | a coerced cell is a number exactly when the cell reads as one, and then that number |
| WencaiProvider.CoerceColumn | src/aiagents_stock/infrastructure/main_force/provider/pywencai_provider.py:171 | coercion rewrites the column's cell in every row and nothing else |
| WencaiProvider.RangeStep | src/aiagents_stock/infrastructure/main_force/provider/pywencai_provider.py:164-175 | without a price-change column the table is kept; with one, every kept row holds a number below the bound |
| WencaiProvider.RangeStepKeeps | src/aiagents_stock/infrastructure/main_force/provider/pywencai_provider.py:164-175 | with a price-change column step 1 keeps exactly the coerced rows whose change is a number below the bound |
| WencaiProvider.CapStep | src/aiagents_stock/infrastructure/main_force/provider/pywencai_provider.py:177-188 | without a capitalisation column the table is kept; with one it is normalised, and when both bounds are truthy every kept row lies within them |
| WencaiProvider.CapStepKeeps | src/aiagents_stock/infrastructure/main_force/provider/pywencai_provider.py:177-188 | step 2 keeps exactly the rows, in 亿, that lie within the bounds when both are truthy (all of them otherwise, and the table itself without a capitalisation column) |
| WencaiProvider.DropST | src/aiagents_stock/infrastructure/main_force/provider/pywencai_provider.py:190-196 | without a name column the table is kept; with one no kept row has a text name containing "ST" |
| WencaiProvider.DropSTKeeps | src/aiagents_stock/infrastructure/main_force/provider/pywencai_provider.py:190-196 | step 3 keeps exactly the rows whose name carries no "ST" (all of them without a name column) |
| WencaiProvider.CapKeepsBelow | src/aiagents_stock/infrastructure/main_force/provider/pywencai_provider.py:164-188 | the capitalisation step keeps the price-change bound of the rows it was given |
| WencaiProvider.DropSTSubset | src/aiagents_stock/infrastructure/main_force/provider/pywencai_provider.py:195-196 | dropping ST rows keeps only rows of its input |
| WencaiProvider.FilterStocksSpec | src/aiagents_stock/infrastructure/main_force/provider/pywencai_provider.py:151-198 | every kept row has its price change below the bound, its capitalisation within truthy bounds, and no ST name; columns are kept and no row is added; conversely every input row below the bound passes step 1 coerced, and every such row meeting the capitalisation and name tests is kept |
| WencaiProvider.FilterStocksComplete | src/aiagents_stock/infrastructure/main_force/provider/pywencai_provider.py:151-198 | every qualifying row is kept: input rows below the bound pass step 1 with their cell coerced (the table is unchanged without a price-change column), and those within the capitalisation bounds in 亿 and without "ST" are in the result |
| WencaiProvider.FilterStocksOrder | src/aiagents_stock/infrastructure/main_force/provider/pywencai_provider.py:151-198 | outside the rewritten price-change and capitalisation cells, the filtered rows are the input rows with some left out, in order |
| WencaiProvider.TopStocks | src/aiagents_stock/infrastructure/main_force/provider/pywencai_provider.py:200-215 | an empty table is returned unchanged; otherwise at most n rows and no more than the table; without a fund column the first rows (the order and the n-largest property with a fund column are TopStocksOrder) |
| WencaiProvider.TopStocksOrder | src/aiagents_stock/infrastructure/main_force/provider/pywencai_provider.py:210-213 | with a fund column the rows come in descending order of normalised inflow, drawn from the normalised table without extra repeats, all of them when n covers the table, and no left-out row with a number has more inflow than a kept row |
| WencaiProvider.TopStocksLargest | src/aiagents_stock/infrastructure/main_force/provider/pywencai_provider.py:210-213 | every left-out row whose inflow is a number has no more inflow than any kept row, each of which has a number |
| WencaiProvider.ColumnsOf | src/aiagents_stock/infrastructure/main_force/provider/pywencai_provider.py:236-241 | the score columns are exactly the columns whose names contain 评分 or 能力 |
| WencaiProvider.StockOf | src/aiagents_stock/infrastructure/main_force/provider/pywencai_provider.py:234-270 | each stock keeps its row as raw data, one score per score column, its code and name as text, and 0.0 for every amount whose column is missing |
| WencaiProvider.Prepared | src/aiagents_stock/infrastructure/main_force/provider/pywencai_provider.py:224-233 | normalising the capitalisation and fund columns keeps the columns and the row count |
| WencaiProvider.ConvertToDomain | src/aiagents_stock/infrastructure/main_force/provider/pywencai_provider.py:217-274 | an empty table gives no stock; otherwise one stock per row in row order, read from the normalised rows |
| WencaiProvider.GetMainForceStocks | src/aiagents_stock/infrastructure/main_force/provider/pywencai_provider.py:23-55 | a failed fetch gives False, no stocks and its message; otherwise the filtered and cut table as stocks, one per row, with a message counting them |
| MainForceSelector.RangeStage | src/aiagents_stock/features/main_force/main_force_selector.py:216-245 | without a price-change column the table is kept; with one, every kept row holds a number below the bound, and a None bound keeps no row |
| MainForceSelector.RangeStageKeeps | src/aiagents_stock/features/main_force/main_force_selector.py:216-245 | with a price-change column step 1 keeps exactly the coerced rows whose change is a number below a given bound |
| MainForceSelector.ToYi | src/aiagents_stock/features/main_force/main_force_selector.py:264 | a number divided into 亿 is one 10^8th of it, and NaN stays NaN |
| MainForceSelector.CapInYi | src/aiagents_stock/features/main_force/main_force_selector.py:258-264 | the capitalisation conversion rewrites only that column, in every row |
| MainForceSelector.CapStage | src/aiagents_stock/features/main_force/main_force_selector.py:252-271 | without a capitalisation column the table is kept; with one, every kept row lies within the bounds, and a missing bound keeps no row |
| MainForceSelector.CapStageKeeps | src/aiagents_stock/features/main_force/main_force_selector.py:252-271 | step 2 keeps exactly the rows, in 亿, that lie within both given bounds (the table itself without a capitalisation column) |
| MainForceSelector.FilteredSpec | src/aiagents_stock/features/main_force/main_force_selector.py:179-284 | the kept rows have their price change below the bound, their capitalisation within both bounds and no ST name; a None bound empties the table; columns are kept and no row is added; conversely every qualifying row, coerced and in 亿, is kept |
| MainForceSelector.FilteredComplete | src/aiagents_stock/features/main_force/main_force_selector.py:179-284 | every qualifying row is kept: input rows below a given bound pass step 1 coerced (the table is unchanged without a price-change column), and those within both capitalisation bounds in 亿 and without "ST" are in the result |
| MainForceSelector.CapRowFrom | src/aiagents_stock/features/main_force/main_force_selector.py:252-271 | each row the capitalisation step keeps is an input row with only its capitalisation cell rewritten |
| MainForceSelector.FilteredOrder | src/aiagents_stock/features/main_force/main_force_selector.py:179-284 | outside the rewritten price-change and capitalisation cells, the filtered rows are the input rows with some left out, in order |
| MainForceSelector.TopRows | src/aiagents_stock/features/main_force/main_force_selector.py:286-327 | an empty table is returned unchanged; otherwise at most n rows and no more than the table; without a fund column the first rows (the order and the n-largest property with a fund column are TopRowsOrder) |
| MainForceSelector.TopRowsOrder | src/aiagents_stock/features/main_force/main_force_selector.py:318-323 | with a fund column the rows come in descending order of coerced inflow, rows without a number last, drawn from the coerced table without extra repeats, all of them when n covers the table, and no left-out row with a number has more inflow than a kept row |
| MainForceSelector.TopRowsLargest | src/aiagents_stock/features/main_force/main_force_selector.py:318-323 | every left-out row whose inflow is a number has no more inflow than any kept row, each of which has a number |
| MainForceSelector.ScoresOf | src/aiagents_stock/features/main_force/main_force_selector.py:404-408 | the scores dictionary has exactly the score columns as keys, each with its cell or "N/A" |
| MainForceSelector.StockDict | src/aiagents_stock/features/main_force/main_force_selector.py:345-408 | each field is the row's cell under its column, with the stated fallbacks, and price change and inflow are None when their column is missing |
| MainForceSelector.Selector.constructor | src/aiagents_stock/features/main_force/main_force_selector.py:43-49 | a new selector holds no fetched and no filtered table |
| MainForceSelector.Selector.GetMainForceStocks | src/aiagents_stock/features/main_force/main_force_selector.py:51-143 | without a start date or days_ago the date arithmetic fails and nothing is kept; otherwise success exactly when some query gives a usable table, which is then kept as raw data and returned with a message counting its rows |
| MainForceSelector.Selector.FilterStocks | src/aiagents_stock/features/main_force/main_force_selector.py:179-284 | returns the filtered table and keeps it as the filtered stocks unless the input was empty; the raw data is untouched |
| MainForceSelector.Selector.FormatStockList | src/aiagents_stock/features/main_force/main_force_selector.py:329-411 | an empty table gives no entry; otherwise one entry per row in row order, built from that row |
| MainForceAnalyzer.FenceBody | src/aiagents_stock/infrastructure/main_force/ai_analyzer.py:272-274 | a fenced block is found exactly when there are two fences, and its text holds no fence |
| MainForceAnalyzer.Candidates | src/aiagents_stock/infrastructure/main_force/ai_analyzer.py:269-283 | one to three candidates are tried, the fenced block first when there is one and the whole reply last |
| MainForceAnalyzer.StripCommasSpec | src/aiagents_stock/infrastructure/main_force/ai_analyzer.py:292-293 | the trailing-comma cleanup only deletes: its result is a subsequence of the text, everything but commas and whitespace survives, and a text without commas is unchanged |
| MainForceAnalyzer.CleanedSpec | src/aiagents_stock/infrastructure/main_force/ai_analyzer.py:292-296 | the retried text is the candidate with some commas and blanks deleted and no other change |
| MainForceAnalyzer.Attempt | src/aiagents_stock/infrastructure/main_force/ai_analyzer.py:287-300 | a candidate yields a value exactly when it decodes as it is or after the cleanup, and the direct decoding wins |
| MainForceAnalyzer.FirstParsed | src/aiagents_stock/infrastructure/main_force/ai_analyzer.py:286-300 | the candidate chosen is the first that yields a value; none is chosen only when no candidate does |
| MainForceAnalyzer.TryCandidates | src/aiagents_stock/infrastructure/main_force/ai_analyzer.py:285-302 | the candidate loop returns the first decoded value, or the error of the last cleanup |
| MainForceAnalyzer.ParseJsonResponse | src/aiagents_stock/infrastructure/main_force/ai_analyzer.py:267-302 | the parse returns the specified value or error for the reply |
| MainForceAnalyzer.ParsedErr | src/aiagents_stock/infrastructure/main_force/ai_analyzer.py:285-302 | the parse fails exactly when no candidate decodes, directly or after the cleanup, and the error then names the whole reply's cleanup error |
| MainForceAnalyzer.FencedFirst | src/aiagents_stock/infrastructure/main_force/ai_analyzer.py:272-274 | a fenced block that decodes wins over everything else in the reply |
| MainForceAnalyzer.WholeReplyParses | src/aiagents_stock/infrastructure/main_force/ai_analyzer.py:283-288 | a reply that decodes as it stands is never rejected |
| MainForceAnalyzer.Tabulate | src/aiagents_stock/infrastructure/main_force/ai_analyzer.py:305-311 | a table writer's text is its heading lines and one line per item, joined by newlines |
| MainForceAnalyzer.ByInflowSpec | src/aiagents_stock/infrastructure/main_force/ai_analyzer.py:308 | at most n stocks, drawn from the list without extra repeats, in descending order of inflow with zero inflows last, all of them when the list is no longer, and no left-out stock with a non-zero inflow has more inflow than a listed one |
| MainForceAnalyzer.ByInflowLargest | src/aiagents_stock/infrastructure/main_force/ai_analyzer.py:308 | a stock left out with a non-zero inflow has no more inflow than any listed stock, each of which has a non-zero inflow |
| MainForceAnalyzer.FormatFund | src/aiagents_stock/infrastructure/main_force/ai_analyzer.py:304-311 | the fund-flow text is the table of the 30 stocks of largest inflow |
| MainForceAnalyzer.Industries | src/aiagents_stock/infrastructure/main_force/ai_analyzer.py:315-319 | the industries are listed once each, every stock's industry is listed, and only those |
| MainForceAnalyzer.Members | src/aiagents_stock/infrastructure/main_force/ai_analyzer.py:315-319 | an industry's stocks are stocks of the list with that industry, and there are none only when no stock has it |
| MainForceAnalyzer.Grouped | src/aiagents_stock/infrastructure/main_force/ai_analyzer.py:315-319 | the groups are the industries in order of first appearance, each with its stocks |
| MainForceAnalyzer.GroupByIndustry | src/aiagents_stock/infrastructure/main_force/ai_analyzer.py:315-319 | the grouping loop builds exactly the industries in order of appearance, each with its own stocks in list order |
| MainForceAnalyzer.TopGroupsMembers | src/aiagents_stock/infrastructure/main_force/ai_analyzer.py:322-325 | exactly min(number of industries, 10) industries are shown, each an industry of some stock with all its stocks, and no industry twice |
| MainForceAnalyzer.TopGroupsRanked | src/aiagents_stock/infrastructure/main_force/ai_analyzer.py:322 | the industries are ranked by how many stocks they hold, largest first, and no industry left out holds more stocks than a shown one |
| MainForceAnalyzer.TopGroupsComplete | src/aiagents_stock/infrastructure/main_force/ai_analyzer.py:322-325 | with at most ten industries every stock's industry is shown |
| MainForceAnalyzer.IndustryBlock | src/aiagents_stock/infrastructure/main_force/ai_analyzer.py:326-329 | each industry contributes a heading line, a line of names and a blank line |
| MainForceAnalyzer.Blocks | src/aiagents_stock/infrastructure/main_force/ai_analyzer.py:324-330 | the industry text is every block's lines in order, joined by newlines |
| MainForceAnalyzer.FormatIndustry | src/aiagents_stock/infrastructure/main_force/ai_analyzer.py:313-330 | the industry text is the blocks of the top ten industries |
| MainForceAnalyzer.ByPeSpec | src/aiagents_stock/infrastructure/main_force/ai_analyzer.py:336-337 | at most 30 stocks with a positive PE, drawn from the list without extra repeats, lowest PE first, and no left-out stock with a positive PE is cheaper than a listed one |
| MainForceAnalyzer.ByPeLowest | src/aiagents_stock/infrastructure/main_force/ai_analyzer.py:336-337 | a stock with a positive PE left out has a PE no lower than any listed stock's |
| MainForceAnalyzer.ByPeComplete | src/aiagents_stock/infrastructure/main_force/ai_analyzer.py:336-337 | every stock with a positive PE is listed when there are at most 30 of them |
| MainForceAnalyzer.FormatFundamental | src/aiagents_stock/infrastructure/main_force/ai_analyzer.py:332-340 | the fundamentals text is the table of the 30 stocks of lowest positive PE |
| MainForceAnalyzer.HighScoresSpec | src/aiagents_stock/infrastructure/main_force/ai_analyzer.py:351 | a score is shown exactly when its text is all digits and its value above 80, in the stock's own order |
| MainForceAnalyzer.FormatFull | src/aiagents_stock/infrastructure/main_force/ai_analyzer.py:342-353 | the selection text is the table of the 50 stocks of largest inflow with their high scores |
| MainForceAnalyzer.Iterated | src/aiagents_stock/infrastructure/main_force/ai_analyzer.py:232-235 | the loop can run exactly over a list, an empty text or an empty dict, and over a list it runs over its items |
| MainForceAnalyzer.Match | src/aiagents_stock/infrastructure/main_force/ai_analyzer.py:238 | the matched stock is the first whose symbol equals the item's, and there is none only when no stock's symbol does |
| MainForceAnalyzer.Enriched | src/aiagents_stock/infrastructure/main_force/ai_analyzer.py:239-250 | the stock's row gains its industry, capitalisation, price change, inflow, PE and PB, and every other cell is kept |
| MainForceAnalyzer.EnrichIdempotent | src/aiagents_stock/infrastructure/main_force/ai_analyzer.py:242-250 | enriching twice is enriching once |
| MainForceAnalyzer.FirstNonDict | src/aiagents_stock/infrastructure/main_force/ai_analyzer.py:237 | the first item that is not a dict, where item.get raises |
| MainForceAnalyzer.HandleItem | src/aiagents_stock/infrastructure/main_force/ai_analyzer.py:235-263 | one pass of the loop builds the item's recommendation and enriches the matched stock, extending the results by exactly that recommendation |
| MainForceAnalyzer.SelectItems | src/aiagents_stock/infrastructure/main_force/ai_analyzer.py:234-265 | an item that is not a dict raises after the earlier items were handled; otherwise one recommendation per item and every named stock enriched |
| MainForceAnalyzer.SelectBest | src/aiagents_stock/infrastructure/main_force/ai_analyzer.py:232-265 | the mapping of the parsed reply is the specified selection |
| MainForceAnalyzer.SelectionErrors | src/aiagents_stock/infrastructure/main_force/ai_analyzer.py:232 | a parsed reply that is not a dict raises, and a dict without recommendations gives none and touches no stock |
| MainForceAnalyzer.SelectionSpec | src/aiagents_stock/infrastructure/main_force/ai_analyzer.py:234-263 | each recommendation of a successful selection carries its matched stock's enriched row and that stock comes back enriched, or an empty row when nothing matches |
| MainForceAnalyzer.Client.constructor | src/aiagents_stock/infrastructure/ai/deepseek_client.py:11-17 | a new client answers through its oracle and has sent nothing |
| MainForceAnalyzer.Client.CallApi | src/aiagents_stock/infrastructure/ai/deepseek_client.py:30-60 | one call is logged and its reply is the oracle's answer to it |
| MainForceAnalyzer.Analyzer.constructor | src/aiagents_stock/infrastructure/main_force/ai_analyzer.py:182-183 | the analyzer holds the given client |
| MainForceAnalyzer.Analyzer.AnalyzeFundFlow | src/aiagents_stock/infrastructure/main_force/ai_analyzer.py:185-190 | exactly one fund-flow call goes out and its reply is returned |
| MainForceAnalyzer.Analyzer.AnalyzeIndustry | src/aiagents_stock/infrastructure/main_force/ai_analyzer.py:192-197 | exactly one industry call goes out and its reply is returned |
| MainForceAnalyzer.Analyzer.AnalyzeFundamental | src/aiagents_stock/infrastructure/main_force/ai_analyzer.py:199-204 | exactly one fundamentals call goes out and its reply is returned |
| MainForceAnalyzer.Analyzer.SelectBestStocks | src/aiagents_stock/infrastructure/main_force/ai_analyzer.py:206-265 | exactly one selection call goes out, and the result is the parse and mapping of its reply |
| MainForceModel.NewAnalysis | src/aiagents_stock/domain/main_force/model.py:41-65 | a new analysis holds its parameters, no id, no stocks, no analyses, no recommendations, no error, zero time and no success |
| MainForceUseCase.AverageWithin | src/aiagents_stock/application/main_force/use_cases.py:119-120 | an average of numbers within bounds lies within the same bounds |
| MainForceUseCase.Counted | src/aiagents_stock/application/main_force/use_cases.py:122-124 | each industry in order of first appearance with the number of its stocks |
| MainForceUseCase.CountIndustries | src/aiagents_stock/application/main_force/use_cases.py:122-124 | the counting loop gives exactly the industries in order of appearance, each with its number of stocks |
| MainForceUseCase.TopCountsSpec | src/aiagents_stock/application/main_force/use_cases.py:125 | exactly min(number of industries, 5) industries, each an industry of some stock with its true non-zero count, no industry twice, largest count first, and no left-out industry holds more stocks |
| MainForceUseCase.TopCountsDistinct | src/aiagents_stock/application/main_force/use_cases.py:122-125 | no industry appears twice among the top counts |
| MainForceUseCase.TopCountsLargest | src/aiagents_stock/application/main_force/use_cases.py:125 | every industry left out holds no more stocks than any listed count |
| MainForceUseCase.GenerateSummary | src/aiagents_stock/application/main_force/use_cases.py:117-131 | the summary is the text of the count, the two averages and the top industries |
| MainForceUseCase.Params | src/aiagents_stock/application/main_force/use_cases.py:33-40 | the recorded parameters hold the six inputs under their keys, a missing start date as None |
| MainForceUseCase.Shortlist | src/aiagents_stock/application/main_force/use_cases.py:60-64 | every kept stock has a price change at most the bound and a capitalisation within the bounds |
| MainForceUseCase.ShortlistSpec | src/aiagents_stock/application/main_force/use_cases.py:60-64 | the shortlist holds exactly the eligible stocks of the list, and its average price change and capitalisation respect the bounds |
| MainForceUseCase.Archive.constructor | src/aiagents_stock/infrastructure/main_force/persistence/sqlite_repository.py:55-84 | a new archive holds no record |
| MainForceUseCase.Archive.Save | src/aiagents_stock/infrastructure/main_force/persistence/sqlite_repository.py:55-84 | a broken store raises and keeps its records; otherwise the analysis is appended and its id is the new record count |
| MainForceUseCase.Settled | src/aiagents_stock/application/main_force/use_cases.py:87-105 | the selection's error fails the analysis with that message; an empty selection fails it with the fixed message; recommendations make it succeed; parameters, id, stocks and time are kept |
| MainForceUseCase.AnalyzeMainForce.constructor | src/aiagents_stock/application/main_force/use_cases.py:12-20 | the use case holds its provider, analyzer and repository |
| MainForceUseCase.AnalyzeMainForce.Consult | src/aiagents_stock/application/main_force/use_cases.py:77-84 | the fund-flow, industry and fundamental calls go out in that order, each answered in turn |
| MainForceUseCase.AnalyzeMainForce.Analyze | src/aiagents_stock/application/main_force/use_cases.py:77-100 | the three analyses and then the selection call go out, and the analysis settles on the selection's outcome; it succeeds exactly when it holds recommendations and no error |
| MainForceUseCase.AnalyzeMainForce.Proceed | src/aiagents_stock/application/main_force/use_cases.py:58-100 | an empty shortlist stops with the fixed error and no call; otherwise four calls go out, the first with the shortlist's summary, and the analysis is the one the calls and the selection settle on the shortlist; success means recommendations and no error |
| MainForceUseCase.AnalyzeMainForce.Run | src/aiagents_stock/application/main_force/use_cases.py:42-105 | a failed provider leaves a new analysis with its message and no call; otherwise the raw stocks are the provider's; an empty shortlist stops with the fixed error, and a non-empty one gives exactly the analysis settled by the four calls on it |
| MainForceUseCase.AnalyzeMainForce.Execute | src/aiagents_stock/application/main_force/use_cases.py:22-115 | the run's outcome with its elapsed time, saved and given the new id exactly when it succeeded or holds raw stocks and the store works; nothing is saved otherwise; with a non-empty shortlist the analysis is the one settled by the four calls on it |
| MainForceReport.ParamCounts | src/aiagents_stock/features/main_force/main_force_pdf_generator.py:33-40 | the parameter table has six rows, the last three counting the raw stocks, the filtered stocks and the recommendations |
| MainForceReport.SectionText | src/aiagents_stock/features/main_force/main_force_pdf_generator.py:48-79 | an analyst section determines the analysis text it shows |
| MainForceReport.SectionSource | src/aiagents_stock/features/main_force/main_force_pdf_generator.py:48-79 | every analyst section comes from one of the three analyses that is present |
| MainForceReport.AnalystSectionsSpec | src/aiagents_stock/features/main_force/main_force_pdf_generator.py:48-79 | each present analysis gets its own section with its text, every section shows its analysis exactly, and there are at most three |
| MainForceReport.AllSomeSpec | src/aiagents_stock/features/main_force/main_force_pdf_generator.py:87-128 | the recommendation blocks are written exactly when every one can be written, one per recommendation in order |
| MainForceReport.BlockHeading | src/aiagents_stock/features/main_force/main_force_pdf_generator.py:94-95 | each recommendation block opens with its rank, symbol and name heading |
| MainForceReport.RecBlocksSpec | src/aiagents_stock/features/main_force/main_force_pdf_generator.py:87-128 | the recommendations section is written exactly when every block can be, with one block per recommendation in order, each opening with its heading |
| MainForceReport.Extended | src/aiagents_stock/features/main_force/main_force_pdf_generator.py:90-92 | `reason_text += ...` succeeds exactly on a text or a list: a text gains the suffix, a list keeps its items and gains one one-character text per character of the suffix |
| MainForceReport.ReasonTextFails | src/aiagents_stock/features/main_force/main_force_pdf_generator.py:90-92 | the reason text fails exactly when the reasons are truthy and either not iterable or added to truthy highlights that are neither a text nor a list; text highlights are followed by the bulleted reasons |
| MainForceReport.ListHighlightsExtended | src/aiagents_stock/features/main_force/main_force_pdf_generator.py:90-92 | list highlights `["x"]` with reasons `["r"]` are extended by the characters of the bullets and the block is written |
| MainForceReport.DictReasonsOncePerKey | src/aiagents_stock/features/main_force/main_force_pdf_generator.py:91 | reasons given as a dictionary are bulleted once per key, every key of it, in its order |
| MainForceReport.RowNumbered | src/aiagents_stock/features/main_force/main_force_pdf_generator.py:150-162 | a candidate row starts with its running number |
| MainForceReport.CandidateTableSpec | src/aiagents_stock/features/main_force/main_force_pdf_generator.py:137-164 | at most 100 candidate rows, drawn from the raw stocks without extra repeats, in descending order of inflow with zero inflows last, numbered from 1, and no left-out stock with a non-zero inflow has more inflow than a listed one |
| MainForceReport.AppendAll | src/aiagents_stock/features/main_force/main_force_pdf_generator.py:87-128 | the block loop returns the concatenated blocks, or fails when one block fails |
| MainForceReport.NumberedLines | src/aiagents_stock/features/main_force/main_force_pdf_generator.py:147-162 | the table loop writes the heading lines and one numbered row per stock |
| MainForceReport.WriteSections | src/aiagents_stock/features/main_force/main_force_pdf_generator.py:48-79 | the section steps write exactly the specified analyst sections |
| MainForceReport.WriteRecommendations | src/aiagents_stock/features/main_force/main_force_pdf_generator.py:82-130 | the recommendation loop writes the specified recommendations text, or the placeholder when there are none |
| MainForceReport.GenerateReport | src/aiagents_stock/features/main_force/main_force_pdf_generator.py:11-180 | with dictionaries iterated in an order listing each key once, the report is the header, the analyst sections, the recommendations, the candidates and the footer, or an error when a recommendation block cannot be written |
| MainForceReport.CloseAt | src/aiagents_stock/features/main_force/main_force_pdf_generator.py:285 | the closing ** of a bold span is the first one on the line |
| MainForceReport.EmphasizeSpan | src/aiagents_stock/features/main_force/main_force_pdf_generator.py:285 | a ** span without stars or line breaks inside becomes a strong element |
| MainForceReport.EmphasizeNoStars | src/aiagents_stock/features/main_force/main_force_pdf_generator.py:285 | a text without ** is left as it is |
| MainForceReport.StepTrack | src/aiagents_stock/features/main_force/main_force_pdf_generator.py:292-313 | each line's pieces move the writer between the states outside a table and inside one without breaking the nesting |
| MainForceReport.ConvertTrack | src/aiagents_stock/features/main_force/main_force_pdf_generator.py:288-313 | the table pass emits properly nested table, row and cell tags, ending inside a table exactly when it says so |
| MainForceReport.TablesBalanced | src/aiagents_stock/features/main_force/main_force_pdf_generator.py:288-318 | after the final close every opened table, row and cell is closed |
| MainForceReport.AppendRow | src/aiagents_stock/features/main_force/main_force_pdf_generator.py:296-307 | a row is written as its cells between row tags |
| MainForceReport.ConvertLine | src/aiagents_stock/features/main_force/main_force_pdf_generator.py:292-313 | one pass of the loop appends the specified pieces of the line and updates the table flag |
| MainForceReport.ConvertTables | src/aiagents_stock/features/main_force/main_force_pdf_generator.py:287-318 | the table loop produces the specified table HTML of the body |
| MainForceReport.NoBarsUnchanged | src/aiagents_stock/features/main_force/main_force_pdf_generator.py:287-318 | a body without bars is left unchanged by the table pass |
| MainForceReport.BarSplits | src/aiagents_stock/features/main_force/main_force_pdf_generator.py:293 | a line holds a bar exactly when splitting it on bars gives two or more parts |
| MainForceReport.CellsBetweenBars | src/aiagents_stock/features/main_force/main_force_pdf_generator.py:296 | the cells are the parts strictly between the first and the last bar |
| Longhubang.Buyers | src/aiagents_stock/features/longhubang/longhubang_scoring.py:98-108 | the buyer list holds exactly the records with a positive buy amount, in order |
| Longhubang.NoBuyers | src/aiagents_stock/features/longhubang/longhubang_scoring.py:98-113 | the buyer list is empty exactly when no record bought a positive amount |
| Longhubang.BuyersCount | src/aiagents_stock/features/longhubang/longhubang_scoring.py:437-442 | the buying seats counted over the records equal the length of the buyer list |
| Longhubang.TiersWithin | src/aiagents_stock/features/longhubang/longhubang_scoring.py:115-136 | a buyer counts as top, else famous, else ordinary, never twice, so the ordinary count is never negative |
| Longhubang.WeightsByTier | src/aiagents_stock/features/longhubang/longhubang_scoring.py:115-136 | scoring by tier counts (10 per top, 5 per famous, 1.5 per ordinary buyer) equals adding up each buyer's own weight |
| Longhubang.QualitySpec | src/aiagents_stock/features/longhubang/longhubang_scoring.py:90-140 | capital quality lies in [0, 30], is 0 exactly when no seat bought, and otherwise is the buyers' weights added up and capped at 30 |
| Longhubang.MatchSeat | src/aiagents_stock/features/longhubang/longhubang_scoring.py:118-122 | the keyword scan stops at the first keyword found in the trader name or the branch (a substring of text, an element of a list, a key of a dict) and reports whether any matches |
| Longhubang.CollectBuyers | src/aiagents_stock/features/longhubang/longhubang_scoring.py:98-108 | the collected buyers are the records with a positive buy amount, a failed conversion counting as 0 |
| Longhubang.TopTier | src/aiagents_stock/features/longhubang/longhubang_scoring.py:115-122 | the top pass counts each buyer matching a top trader once and adds 10 per such buyer |
| Longhubang.FamousTier | src/aiagents_stock/features/longhubang/longhubang_scoring.py:124-132 | the famous pass counts each buyer that is not top but matches a famous trader once and adds 5 per such buyer |
| Longhubang.CalculateCapitalQuality | src/aiagents_stock/features/longhubang/longhubang_scoring.py:90-140 | the method computes the capital-quality score: 0 with no buyer, otherwise the tiered sum capped at 30 |
| Longhubang.InflowBounds | src/aiagents_stock/features/longhubang/longhubang_scoring.py:142-178 | the net-inflow score is 0 exactly when the net total is at most 0, never exceeds 25, and is 25 from 2亿 on |
| Longhubang.InflowLandmarks | src/aiagents_stock/features/longhubang/longhubang_scoring.py:162-176 | the segments meet at 10 points for 1000万, 18 for 5000万 and 22 for 1亿 |
| Longhubang.InflowMonotone | src/aiagents_stock/features/longhubang/longhubang_scoring.py:162-176 | a larger net inflow never scores less |
| Longhubang.CalculateNetInflowScore | src/aiagents_stock/features/longhubang/longhubang_scoring.py:142-178 | the method sums the net inflows (a failed conversion adds nothing) and scores the total piecewise |
| Longhubang.PressureBounds | src/aiagents_stock/features/longhubang/longhubang_scoring.py:180-229 | sell pressure lies in [0, 20]; it is 0 when nothing or a negative total was bought, 20 when under a tenth of the buying was sold, and 0 once the selling reaches the buying |
| Longhubang.RatioMonotone | src/aiagents_stock/features/longhubang/longhubang_scoring.py:211-229 | a larger sell-to-buy ratio never scores more |
| Longhubang.Totals | src/aiagents_stock/features/longhubang/longhubang_scoring.py:190-203 | the loop gives the buy and sell totals, each failed conversion counting as 0 |
| Longhubang.CalculateSellPressureScore | src/aiagents_stock/features/longhubang/longhubang_scoring.py:180-229 | the method returns 0 for a zero buy total, else the piecewise score of the sell ratio (ratio 1 for a negative buy total) |
| Longhubang.BuyersSplit | src/aiagents_stock/features/longhubang/longhubang_scoring.py:243-264 | institutional and other buying seats together are all the buyers |
| Longhubang.ResonanceCases | src/aiagents_stock/features/longhubang/longhubang_scoring.py:231-277 | 15 when institutions and other traders both buy, min(8 + 2n, 12) with only n institutions, min(5 + n, 10) with only n other traders, 0 with no buyer |
| Longhubang.CalculateInstitutionScore | src/aiagents_stock/features/longhubang/longhubang_scoring.py:231-277 | the method skips seats that bought nothing, counts institutional and other buyers and scores them by those cases |
| Longhubang.BonusSpec | src/aiagents_stock/features/longhubang/longhubang_scoring.py:279-372 | the bonus fails (ZeroDivisionError) exactly when something was bought and the sell total is -1; otherwise it lies in [0, 10] and is at least 1 for any record |
| Longhubang.CollectConcepts | src/aiagents_stock/features/longhubang/longhubang_scoring.py:304-309 | the concept list is every record's comma-separated concept text, each part stripped, in order |
| Longhubang.HotPoints | src/aiagents_stock/features/longhubang/longhubang_scoring.py:334-337 | hot concepts add 0.3 each before the cap |
| Longhubang.BasePoints | src/aiagents_stock/features/longhubang/longhubang_scoring.py:290-345 | concentration (3, 2.5, 2, 1.5 or 1 by seat count), hot concepts capped at 3, and 2 or 1 for three or two records |
| Longhubang.RatioPoints | src/aiagents_stock/features/longhubang/longhubang_scoring.py:348-370 | 2, 1.5 or 1 point when the buy total over (sell total + 1) reaches 10, 5 or 3; division by zero when the sell total is -1 |
| Longhubang.CalculateBonusScore | src/aiagents_stock/features/longhubang/longhubang_scoring.py:279-372 | the method computes the bonus of the records: 0 for none, otherwise the four parts capped at 10, or the division error |
| Longhubang.RoundTenthWithin | src/aiagents_stock/features/longhubang/longhubang_scoring.py:88 | rounding a total of [0, 100] to one decimal stays in [0, 100] |
| Longhubang.StockScoreSpec | src/aiagents_stock/features/longhubang/longhubang_scoring.py:57-88 | no records score 0.0; the score fails only where the bonus fails; it lies in [0, 100] (30 + 25 + 20 + 15 + 10) and within 0.05 of the five scores' sum |
| Longhubang.CalculateStockScore | src/aiagents_stock/features/longhubang/longhubang_scoring.py:57-88 | the method adds the five scores and rounds the sum to one decimal |
| Longhubang.CountTopYouzi | src/aiagents_stock/features/longhubang/longhubang_scoring.py:498-517 | the method counts the records with a positive buy amount whose name or branch mentions a top trader |
| Longhubang.TopBuyersSpec | src/aiagents_stock/features/longhubang/longhubang_scoring.py:498-517 | the top traders counted by _count_top_youzi are the top tier of capital quality, so never more than the buyers |
| Longhubang.Position | src/aiagents_stock/features/longhubang/longhubang_scoring.py:396 | the lookup finds the entry holding a code, or reports that no entry does |
| Longhubang.GroupsErr | src/aiagents_stock/features/longhubang/longhubang_scoring.py:389-400 | grouping fails exactly when some record's code is a non-empty list or dict (unhashable) |
| Longhubang.WithCodeFound | src/aiagents_stock/features/longhubang/longhubang_scoring.py:389-400 | a code with grouped records is the code of some record |
| Longhubang.SkipKeeps | src/aiagents_stock/features/longhubang/longhubang_scoring.py:393-394 | a record without a code leaves the grouping as it is |
| Longhubang.AppendKeeps | src/aiagents_stock/features/longhubang/longhubang_scoring.py:399 | a record whose code already has an entry is appended to that entry's records |
| Longhubang.OpenKeeps | src/aiagents_stock/features/longhubang/longhubang_scoring.py:396-397 | a record with a new code opens a new entry named after it at the end |
| Longhubang.GroupsSpec | src/aiagents_stock/features/longhubang/longhubang_scoring.py:387-400 | the grouping has one entry per distinct truthy code, holding all records with that code in order and the name of the first |
| Longhubang.GroupRecords | src/aiagents_stock/features/longhubang/longhubang_scoring.py:387-400 | the loop fills the grouping dict as the grouping function states, failing on an unhashable code |
| Longhubang.RowOfSpec | src/aiagents_stock/features/longhubang/longhubang_scoring.py:402-475 | a stock's row carries its code and name, the score calculate_stock_score gives its records, at most as many top traders as buyers, and no rank yet |
| Longhubang.SeatTotals | src/aiagents_stock/features/longhubang/longhubang_scoring.py:415-442 | the loops give the net total and the number of seats with a positive buy amount |
| Longhubang.ScoreEntry | src/aiagents_stock/features/longhubang/longhubang_scoring.py:402-475 | the method builds a stock's row from the five scores, the counters and the institution flag, or fails with the bonus |
| Longhubang.RowsOfSpec | src/aiagents_stock/features/longhubang/longhubang_scoring.py:402-475 | the rows exist exactly when every stock scores; then there is one unranked row per entry with its code and score |
| Longhubang.RankedSpec | src/aiagents_stock/features/longhubang/longhubang_scoring.py:485-494 | ranking changes only the rank columns: ranks are 1..n and scores stay |
| Longhubang.SortedUnranked | src/aiagents_stock/features/longhubang/longhubang_scoring.py:484 | sorting keeps the rows (a permutation) and orders them by score from the highest |
| Longhubang.RankRowsSpec | src/aiagents_stock/features/longhubang/longhubang_scoring.py:484-494 | the ranked rows are a permutation of the stocks' rows, scores descending, ranks 1..n, gold, silver and bronze on the first three and the plain rank after |
| Longhubang.RankingSpec | src/aiagents_stock/features/longhubang/longhubang_scoring.py:374-496 | a successful ranking groups the records, scores every stock and sorts and ranks their rows |
| Longhubang.RankingErr | src/aiagents_stock/features/longhubang/longhubang_scoring.py:374-496 | score_all_stocks fails exactly when some code is unhashable or some stock's bonus divides by zero |
| Longhubang.ScoreEntries | src/aiagents_stock/features/longhubang/longhubang_scoring.py:402-478 | the per-stock loop gives the rows of all entries in order, or the first failure |
| Longhubang.AssignRanks | src/aiagents_stock/features/longhubang/longhubang_scoring.py:485-494 | the rank loop and the medal updates give ranks 1..n with their displays |
| Longhubang.ScoreAllStocks | src/aiagents_stock/features/longhubang/longhubang_scoring.py:374-496 | the method returns no rows for no records, otherwise the grouped, scored, sorted and ranked rows, or the first error |

## Left out

- **LLM transport.** The OpenAI-compatible client behind `Llm.Gateway` and `MainForceAnalyzer.Client` is an oracle. `DeepSeekClient.call_api` turns request failures into text, so the model's main-force client never fails. The reasoner `max_tokens` bump is not modelled.
- **Prompt wording.** The prompt templates (`domain/analysis/prompts.py` and the main-force prompt constants) are not part of this model. A prompt is identified by its template and the arguments filled into it.
- **Concurrency.** Thread pools and their timeouts are sequential loops in the enabled-role order.
- **Data fetching.**
  - akshare, tushare, yfinance and pywencai calls, `datetime.now()`, `time.sleep` and dotenv reading are parameters or left out.
  - The fetchers' own row formatting is left out.
  - The date arithmetic behind `days_ago` is a `dateBefore` parameter.
- **Indicator mathematics.** The `ta` calculations are left out; only the classification over given indicator values is modelled.
- **JSON.** Decoding is the abstract `decode` parameter. `json.dumps` is not modelled.
- **SQLite.** Storage is an in-memory map from row id to row. The statistics and history queries are left out.
- **Streamlit.** The UI, session state and the display parts of the pages are left out.
- **Service wrappers.** `run_ai_analysis`, `save_analysis_to_db` and the cached `get_*` wrappers of `web/services/analysis_service.py` are not modelled. They hand work to the legacy analyzer and the database, which are outside the modelled paths.
- **LegacyAnalyzer.** `make_final_decision` of the legacy analyzer is not modelled. It only forwards to the client's final-decision method, which is not part of this model.
- **Report HTML.**
  - The heading, rule, list and paragraph regexes of `generate_html_content` are not modelled.
  - The HTML page shell and the base64 download links are not modelled either.
  - The table pass is modelled on a token sequence of table, row, cell and text pieces, not on the joined HTML string.
- Values.Str: floats are rendered as decimals, not with Python's shortest round-trip repr. Containers render as a placeholder.
- Repository.FindById: the id is read with `Numbers.ParseInt`, which rejects the underscore grouping ("1_0") and the non-ASCII decimal digits ("１２") that Python's `int()` accepts, so such an id finds no row here.
- Numbers.ParseDecimal: Python's `float()` is read without exponents, `inf`, `nan` or underscores.
- Numbers.RoundTenth: rounds half-up on exact reals; Python's `round` and `:.2f` round binary floats half-to-even.
- Numbers.RoundWhole: rounds half-up on exact reals; Python's `round` and `:.2f` round binary floats half-to-even.
- Numbers.RoundCents: rounds half-up on exact reals; Python's `round` and `:.2f` round binary floats half-to-even.
- Values.Fixed2: rounds half-up on exact reals; Python's `round` and `:.2f` round binary floats half-to-even.
- Values.Fixed1: rounds half-up on exact reals; Python's `:.1f` rounds binary floats half-to-even.
- Indicators.LatestIndicators: a text or container cell in a read column is taken to raise, where Python would compare some of them, or convert them with `float()`. The frames the adapter computes hold floats and NaN only. A float NaN in the dictionary is written as the missing number `None`, and an infinite change as `None` too. The index label's text and the text of the raised exception are inputs, since the frame model has no index and Python composes the message.
- **NaN cells.** A float NaN stored in a raw row is not a value of the model. Inside the column pipelines, pandas NaN is a missing number.
- Strings.IsDigit: `isdigit()` accepts ASCII digits only; Unicode digits are not modelled.
- **Table order.**
  - Ties in `sorted`, `nlargest` and `sort_values` are broken by a stable insertion sort.
  - `nlargest`'s own tie order is not modelled.
  - Dict insertion order is passed as an `order` parameter where the report iterates a dict.
- MainForceAnalyzer.SelectBest: returns the updated stock list as a value. In Python `stock_data.update` mutates the same `raw_data` dict that `raw_stocks`, `filtered_stocks` and earlier recommendations share. The model does not capture that aliasing.
- MainForceSelector.Selector.FilterStocks: pandas rewrites the coerced columns of a copy. Errors of the `.str` accessor on a non-text name column are not modelled.
- WencaiProvider.DropST: errors of the `.str` accessor on a non-text name column (pywencai_provider.py:196) are not modelled; a non-text name is read as carrying no "ST".
- MainForceReport.GenerateReport: the `TypeError` and `AttributeError` paths of odd recommendation fields come back as `None`, without Python's message. List highlights are extended by `+=` in place, so the recommendation held by the analysis is changed as a side effect; the model builds a new value and does not capture that aliasing.
- MainForceSelector.TopRows: takes `n` as an integer; the `top_n=None` default of main_force_selector.py:285 is not modelled (with it `nlargest(None)` raises and `head(None)` keeps every row).
- WebParsing.ExtractFirstFloat: takes text; the `str(value)` that parsing.py applies to any value first is not modelled, so a JSON number passed from history.py:107-109 is outside the model.
- WebParsing.ExtractFloatRange: takes text, for the same reason as WebParsing.ExtractFirstFloat.
- **Longhubang.**
  - The scoring class's constructor is not modelled. `__init__` calls `self.logger.info` (longhubang_scoring.py:55) on an attribute it never sets, so construction raises. The keyword and seat lists it would hold are constants of the model.
  - Python treats the codes 1, 1.0 and True as the same dict key; the model keeps them apart.
  - The concept bonus accumulates 0.3 steps exactly.
  - The unused `total_buy` and `total_sell` sums of `score_all_stocks` are not modelled.
- **AnalysisModel.** Review and update timestamps are a clock parameter. Their `%Y-%m-%d %H:%M:%S` rendering is not modelled.
- Longhubang.Holds: a trader name or branch cell that is neither text, a list nor a dict reads as no match; Python raises `TypeError` at the `in` test.
