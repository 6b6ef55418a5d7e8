/**
 * `DeepSeekAnalysisOrchestrator`: runs the enabled analysts, merges their
 * reviews into the aggregate, holds the team discussion and turns the
 * decision reply into a decision dictionary.
 *
 * The thread pool is a loop over the enabled roles in list order (all
 * aggregate updates happen on the coordinating thread); JSON decoding is the
 * parameter `decode`, whose `Err` is a raised `JSONDecodeError`.
 */
module Orchestrator {
  import opened Wrappers
  import opened Strings
  import opened Values
  import opened AnalysisModel
  import opened Llm
  import opened Bundles
  import opened Agents

  // ---- fan-out ----

  /** The reviews merged so far and the requests sent so far. */
  datatype FanState = FanState(reviews: map<AgentRole, AgentReview>, calls: seq<Call>)

  /**
   * One analyst's turn: when its prompt builds, one gateway call (the
   * `base + |calls|`-th of the gateway); a reply becomes that role's review,
   * replacing any earlier one; a raised error leaves the reviews alone.
   */
  function FanStep(role: AgentRole, st: FanState, prompt: Result<Prompt>,
                   respond: (nat, Call) -> Result<string>, base: nat, now: Time): FanState
  {
    match prompt
    case Err(_) => st
    case Ok(p) =>
      var req := AnalystCall(role, p);
      match respond(base + |st.calls|, req)
      case Ok(text) => FanState(st.reviews[role := ReviewResult(role, text, now)], st.calls + [req])
      case Err(_) => FanState(st.reviews, st.calls + [req])
  }

  /**
   * The fan-out over `roles`, in order, starting from `reviews`; `promptOf`
   * builds each analyst's prompt (`UserPrompt` for the stock and bundle).
   */
  function FanOut(reviews: map<AgentRole, AgentReview>, roles: seq<AgentRole>, promptOf: AgentRole -> Result<Prompt>,
                  respond: (nat, Call) -> Result<string>, base: nat, now: Time): (st: FanState)
    ensures |st.calls| <= |roles|
  {
    if roles == [] then FanState(reviews, [])
    else
      var role := roles[|roles| - 1];
      FanStep(role, FanOut(reviews, roles[..|roles| - 1], promptOf, respond, base, now),
              promptOf(role), respond, base, now)
  }

  /** One turn adds at most its own role's review, filed under that role, and drops none. */
  lemma FanStepKeys(role: AgentRole, st: FanState, prompt: Result<Prompt>,
                    respond: (nat, Call) -> Result<string>, base: nat, now: Time)
    ensures var st2 := FanStep(role, st, prompt, respond, base, now);
      && st2.reviews.Keys <= st.reviews.Keys + {role}
      && st.reviews.Keys <= st2.reviews.Keys
      && (forall r | r in st2.reviews && r != role :: st2.reviews[r] == st.reviews[r])
      && (role in st2.reviews ==> st2.reviews[role].role == role || (role in st.reviews && st2.reviews[role] == st.reviews[role]))
  {
  }

  /** A turn whose prompt is built makes exactly one call; its reply alone decides the reviews. */
  lemma FanStepCalls(role: AgentRole, st: FanState, p: Prompt,
                     respond: (nat, Call) -> Result<string>, base: nat, now: Time)
    ensures var req := AnalystCall(role, p);
      var st2 := FanStep(role, st, Ok(p), respond, base, now);
      && st2.calls == st.calls + [req]
      && (respond(base + |st.calls|, req).Err? ==> st2.reviews == st.reviews)
      && (respond(base + |st.calls|, req).Ok? ==>
            st2.reviews == st.reviews[role := ReviewResult(role, respond(base + |st.calls|, req).value, now)])
  {
  }

  /** The analysts' prompt builder for one stock and bundle. */
  function PromptsFor(info: StockInfo, b: DataBundle): AgentRole -> Result<Prompt>
  {
    r => UserPrompt(r, info, b)
  }

  /** Every review after the fan-out was there before or belongs to an enabled role, and is filed under its own role. */
  lemma {:induction false} FanOutKeys(reviews: map<AgentRole, AgentReview>, roles: seq<AgentRole>, promptOf: AgentRole -> Result<Prompt>,
                                       respond: (nat, Call) -> Result<string>, base: nat, now: Time)
    requires forall r | r in reviews :: reviews[r].role == r
    ensures var st := FanOut(reviews, roles, promptOf, respond, base, now);
      && (forall r | r in st.reviews :: r in reviews || r in roles)
      && (forall r | r in st.reviews :: st.reviews[r].role == r)
      && reviews.Keys <= st.reviews.Keys
  {
    if roles != [] {
      var init := roles[..|roles| - 1];
      var last := roles[|roles| - 1];
      FanOutKeys(reviews, init, promptOf, respond, base, now);
      var st0 := FanOut(reviews, init, promptOf, respond, base, now);
      FanStepKeys(last, st0, promptOf(last), respond, base, now);
      var st := FanStep(last, st0, promptOf(last), respond, base, now);
      assert FanOut(reviews, roles, promptOf, respond, base, now) == st;
      forall r | r in st.reviews
        ensures (r in reviews || r in roles) && st.reviews[r].role == r
      {
        if r != last {
          assert r in st0.reviews;
        }
      }
    }
  }

  /** An answered turn adds (or replaces) exactly its role's review and makes one call. */
  lemma FanStepAnswered(role: AgentRole, st: FanState, prompt: Result<Prompt>,
                        respond: (nat, Call) -> Result<string>, base: nat, now: Time)
    requires prompt.Ok? && respond(base + |st.calls|, AnalystCall(role, prompt.value)).Ok?
    ensures var st2 := FanStep(role, st, prompt, respond, base, now);
      && st2.reviews.Keys == st.reviews.Keys + {role}
      && |st2.calls| == |st.calls| + 1
      && st2.reviews[role].role == role && st2.reviews[role].agentName == AgentName(role)
      && (forall r | r in st.reviews && r != role :: st2.reviews[r] == st.reviews[r])
  {
  }

  /**
   * When every enabled analyst's prompt builds and the gateway answers every
   * call, each enabled role ends up with exactly one review and one call is
   * made per enabled entry.
   */
  lemma {:induction false} FanOutAllAnswer(reviews: map<AgentRole, AgentReview>, roles: seq<AgentRole>, promptOf: AgentRole -> Result<Prompt>,
                                            respond: (nat, Call) -> Result<string>, base: nat, now: Time)
    requires forall n: nat, req: Call :: respond(n, req).Ok?
    requires forall i | 0 <= i < |roles| :: promptOf(roles[i]).Ok?
    ensures var st := FanOut(reviews, roles, promptOf, respond, base, now);
      && |st.calls| == |roles|
      && reviews.Keys <= st.reviews.Keys
      && (forall i | 0 <= i < |roles| ::
            roles[i] in st.reviews && st.reviews[roles[i]].role == roles[i] && st.reviews[roles[i]].agentName == AgentName(roles[i]))
  {
    if roles != [] {
      var init := roles[..|roles| - 1];
      var last := roles[|roles| - 1];
      FanOutAllAnswer(reviews, init, promptOf, respond, base, now);
      var st0 := FanOut(reviews, init, promptOf, respond, base, now);
      FanStepAnswered(last, st0, promptOf(last), respond, base, now);
      var st := FanStep(last, st0, promptOf(last), respond, base, now);
      assert FanOut(reviews, roles, promptOf, respond, base, now) == st;
      forall i | 0 <= i < |roles|
        ensures roles[i] in st.reviews && st.reviews[roles[i]].role == roles[i] && st.reviews[roles[i]].agentName == AgentName(roles[i])
      {
        if roles[i] != last {
          assert roles[i] == init[i];
        }
      }
    }
  }

  // ---- the team discussion ----

  /** The discussion input's entry for one review. */
  function SummaryEntry(review: AgentReview): string
  {
    "\n【" + review.agentName + "】:\n" + Str(review.content.summary) + "\n"
  }

  /** The entries of the reviews present for `roles`, in that order. */
  function AgentsSummary(reviews: map<AgentRole, AgentReview>, roles: seq<AgentRole>): string
  {
    if roles == [] then ""
    else
      var r := roles[|roles| - 1];
      AgentsSummary(reviews, roles[..|roles| - 1]) + (if r in reviews then SummaryEntry(reviews[r]) else "")
  }

  /** The summary is empty exactly when no listed role has a review: every entry has text. */
  lemma {:induction false} AgentsSummaryEmpty(reviews: map<AgentRole, AgentReview>, roles: seq<AgentRole>)
    ensures AgentsSummary(reviews, roles) == "" <==> forall r | r in roles :: r !in reviews
  {
    if roles != [] {
      var init := roles[..|roles| - 1];
      AgentsSummaryEmpty(reviews, init);
      assert forall r | r in roles :: r in init || r == roles[|roles| - 1];
      assert forall r | r in init :: r in roles;
    }
  }

  /** The summary of two role lists is the summary of the first followed by that of the second. */
  lemma {:induction false} AgentsSummaryConcat(reviews: map<AgentRole, AgentReview>, xs: seq<AgentRole>, ys: seq<AgentRole>)
    ensures AgentsSummary(reviews, xs + ys) == AgentsSummary(reviews, xs) + AgentsSummary(reviews, ys)
  {
    if ys == [] {
      assert xs + ys == xs;
    } else {
      assert (xs + ys)[..|xs + ys| - 1] == xs + ys[..|ys| - 1];
      AgentsSummaryConcat(reviews, xs, ys[..|ys| - 1]);
    }
  }

  /** The summary depends only on the review of each listed role, not on how the reviews were collected. */
  lemma {:induction false} AgentsSummaryLocal(r1: map<AgentRole, AgentReview>, r2: map<AgentRole, AgentReview>, roles: seq<AgentRole>)
    requires forall r | r in roles :: (r in r1 <==> r in r2) && (r in r1 ==> r1[r] == r2[r])
    ensures AgentsSummary(r1, roles) == AgentsSummary(r2, roles)
  {
    if roles != [] {
      var init := roles[..|roles| - 1];
      assert forall r | r in init :: r in roles;
      AgentsSummaryLocal(r1, r2, init);
    }
  }

  /** The discussion loop over the fixed role order. */
  method BuildAgentsSummary(reviews: map<AgentRole, AgentReview>) returns (text: string)
    ensures text == AgentsSummary(reviews, AllRoles)
  {
    text := "";
    var i := 0;
    while i < |AllRoles|
      invariant 0 <= i <= |AllRoles|
      invariant text == AgentsSummary(reviews, AllRoles[..i])
    {
      var role := AllRoles[i];
      assert AllRoles[..i + 1][..i] == AllRoles[..i];
      if role in reviews {
        text := text + SummaryEntry(reviews[role]);
      }
      i := i + 1;
    }
    assert AllRoles[..|AllRoles|] == AllRoles;
  }

  const ModeratorPrompt := "你现在是股票分析团队的主持人。"
  const DecisionMakerPrompt := "你是一名专业的投资决策专家，需要给出明确、可执行的投资建议。"
  const JsonFixerPrompt := "你是一个 JSON 格式修复专家。"
  const RepairTemperature: real := 0.1
  const NoJsonFound := "No JSON found"
  const ParseFailedAfterRetry := "JSON parse failed after retry"
  const NoWorkersError := "ValueError: max_workers must be greater than 0"

  /**
   * What each call puts on the wire (`_call_llm`): the caller's system prompt
   * and its filled template as a `[system, user]` pair, at temperature 0.7
   * (0.1 for the JSON repair) and 2000 tokens.
   */
  function Wire(c: Call): Request
  {
    match c
    case AnalystCall(role, prompt) =>
      SystemUserRequest(SystemPrompt(role), Filled(prompt), DefaultTemperature, DefaultMaxTokens)
    case DiscussionCall(info, agentsText) =>
      SystemUserRequest(ModeratorPrompt,
        Filled(Prompt("TEAM_DISCUSSION_PROMPT",
          map["symbol" := StrArg(info.symbol), "name" := StrArg(info.name), "agents_analysis_text" := StrArg(agentsText)])),
        DefaultTemperature, DefaultMaxTokens)
    case DecisionCall(info, discussion, ind) =>
      SystemUserRequest(DecisionMakerPrompt,
        Filled(Prompt("FINAL_DECISION_PROMPT",
          map["symbol" := StrArg(info.symbol), "name" := StrArg(info.name),
              "current_price" := Val(VFloat(info.currentPrice)), "comprehensive_discussion" := StrArg(discussion),
              "ma20" := Val(Get(ind, "ma20", VStr("N/A"))), "bb_upper" := Val(Get(ind, "bb_upper", VStr("N/A"))),
              "bb_lower" := Val(Get(ind, "bb_lower", VStr("N/A")))])),
        DefaultTemperature, DefaultMaxTokens)
    case RepairCall(rawOutput, errorMessage) =>
      SystemUserRequest(JsonFixerPrompt,
        Filled(Prompt("JSON_FIX_PROMPT", map["error_message" := StrArg(errorMessage), "raw_output" := StrArg(rawOutput)])),
        RepairTemperature, DefaultMaxTokens)
  }

  /**
   * Every call is a `[system, user]` pair of at most 2000 tokens; only the
   * JSON repair runs at the low temperature 0.1, and an analyst's user
   * message is its own filled template.
   */
  lemma WireShape(c: Call)
    ensures var r := Wire(c);
      && |r.messages| == 2 && r.messages[0].role == "system" && r.messages[1].role == "user"
      && r.maxTokens == 2000
      && (r.temperature == 0.1 <==> c.RepairCall?) && (!c.RepairCall? ==> r.temperature == 0.7)
      && (c.AnalystCall? ==> r.messages[0].content == Plain(SystemPrompt(c.role)) && r.messages[1].content == Filled(c.prompt))
  {
  }

  // ---- the decision ----

  /**
   * Where the greedy `\{.*\}` match of `_extract_json` lies: from the first
   * '{' to the last '}', when that '}' comes after the '{'.
   */
  function JsonBounds(text: string): (r: Option<(int, int)>)
    ensures r.Some? ==> 0 <= r.value.0 < r.value.1 < |text| && text[r.value.0] == '{' && text[r.value.1] == '}'
  {
    var lo := Find(text, '{');
    var hi := RFind(text, '}');
    if lo < 0 || hi <= lo then None else Some((lo, hi))
  }

  /** `_extract_json`: the matched span is decoded as it stands; without one the result is `None` (`Ok(VNone)`). A decoding error propagates. */
  function ExtractJson(text: string, decode: string -> Result<Value>): Result<Value>
  {
    match JsonBounds(text)
    case None => Ok(VNone)
    case Some((lo, hi)) => decode(text[lo..hi + 1])
  }

  /** Without a span there is no '{' followed anywhere by a '}'. */
  lemma JsonBoundsNone(text: string)
    ensures JsonBounds(text).None? <==>
      forall i, j | 0 <= i < j < |text| :: !(text[i] == '{' && text[j] == '}')
  {
    var lo := Find(text, '{');
    var hi := RFind(text, '}');
    if JsonBounds(text).Some? {
      assert text[lo] == '{' && text[hi] == '}';
    }
  }

  /** With a span, no '{' comes before it and no '}' after it: it is the widest one. */
  lemma JsonBoundsWidest(text: string)
    requires JsonBounds(text).Some?
    ensures var (lo, hi) := JsonBounds(text).value;
      (forall k | 0 <= k < lo :: text[k] != '{') && (forall k | hi < k < |text| :: text[k] != '}')
  {
  }

  /** The first attempt found nothing or raised, so the repair call is made. */
  predicate NeedsRepair(response: string, decode: string -> Result<Value>)
  {
    var first := ExtractJson(response, decode);
    first.Err? || first.value == VNone
  }

  /** `error_msg or "No JSON found"`. */
  function RepairMessage(response: string, decode: string -> Result<Value>): string
  {
    var first := ExtractJson(response, decode);
    if first.Err? && first.error != "" then first.error else NoJsonFound
  }

  /** `decision_json` after the optional repair, whose failures are absorbed (`VNone`). */
  function ParsedDecision(response: string, repairReply: Result<string>, decode: string -> Result<Value>): Value
  {
    if !NeedsRepair(response, decode) then ExtractJson(response, decode).value
    else if repairReply.Ok? && ExtractJson(repairReply.value, decode).Ok? then ExtractJson(repairReply.value, decode).value
    else VNone
  }

  function FallbackDecision(response: string): Value
  {
    VDict(map["decision_text" := VStr(response), "error" := VStr(ParseFailedAfterRetry)])
  }

  /** The decision recorded: the parsed value when truthy, else the text fallback. */
  function FinalDecision(response: string, repairReply: Result<string>, decode: string -> Result<Value>): Value
  {
    var parsed := ParsedDecision(response, repairReply, decode);
    if Truthy(parsed) then parsed else FallbackDecision(response)
  }

  /**
   * The recorded decision is never empty; it is the parsed value exactly when
   * that is truthy, so a parsed `{}` (or a failed parse) gives the fallback
   * holding the first reply.
   */
  lemma FinalDecisionSpec(response: string, repairReply: Result<string>, decode: string -> Result<Value>)
    ensures var d := FinalDecision(response, repairReply, decode);
      var parsed := ParsedDecision(response, repairReply, decode);
      && Truthy(d)
      && (d == parsed <==> Truthy(parsed))
      && (!Truthy(parsed) ==> d.VDict? && d.entries["decision_text"] == VStr(response))
      && (parsed == VDict(map[]) ==> d == FallbackDecision(response))
  {
    var d := FallbackDecision(response);
    assert "decision_text" in d.entries;
  }

  /** Without a repair, the repair reply plays no part in the decision. */
  lemma NoRepairIgnoresReply(response: string, reply1: Result<string>, reply2: Result<string>, decode: string -> Result<Value>)
    requires !NeedsRepair(response, decode)
    ensures FinalDecision(response, reply1, decode) == FinalDecision(response, reply2, decode)
    ensures ParsedDecision(response, reply1, decode) == ExtractJson(response, decode).value
  {
  }

  /**
   * The parsing part of `_make_final_decision`: the first extraction, and one
   * repair call (`_fix_json_format`) exactly when it gave nothing or raised;
   * a failure of the repair call or of its extraction is absorbed.
   */
  method ParseDecision(text: string, gw: Gateway, decode: string -> Result<Value>) returns (decision: Value)
    modifies gw
    ensures NeedsRepair(text, decode) ==> gw.log == old(gw.log) + [RepairCall(text, RepairMessage(text, decode))]
    ensures !NeedsRepair(text, decode) ==> gw.log == old(gw.log)
    ensures decision == ParsedDecision(text, old(gw.Reply(RepairCall(text, RepairMessage(text, decode)))), decode)
  {
    decision := VNone;
    var errorMsg := "";
    var first := ExtractJson(text, decode);
    if first.Ok? {
      decision := first.value;
    } else {
      errorMsg := first.error;
    }
    if decision == VNone {
      var fixed := gw.Send(RepairCall(text, if errorMsg != "" then errorMsg else NoJsonFound));
      if fixed.Ok? {
        var second := ExtractJson(fixed.value, decode);
        if second.Ok? {
          decision := second.value;
        }
      }
    }
  }

  /**
   * The rest of `_make_final_decision` once the decision call has answered:
   * the parse with its optional repair, then `finalize_decision` with the
   * parsed value when truthy and the text fallback otherwise.
   */
  method DecideOn(analysis: StockAnalysis, response: string, gw: Gateway, decode: string -> Result<Value>, now: Time)
    returns (o: Outcome)
    requires analysis.Valid()
    modifies analysis, gw
    ensures analysis.Valid()
    ensures var fix := RepairCall(response, RepairMessage(response, decode));
      && gw.log == old(gw.log) + (if NeedsRepair(response, decode) then [fix] else [])
      && (o.Pass? ==> analysis.finalDecision == FinalDecision(response, old(gw.Reply(fix)), decode))
    ensures o.Fail? <==> !Truthy(old(analysis.teamDiscussion))
    ensures o.Pass? ==> analysis.status == Completed
    ensures o.Fail? ==> analysis.finalDecision == old(analysis.finalDecision) && analysis.status == old(analysis.status)
    ensures analysis.reviews == old(analysis.reviews) && analysis.teamDiscussion == old(analysis.teamDiscussion)
    ensures analysis.stockInfo == old(analysis.stockInfo) && analysis.id == old(analysis.id) && analysis.period == old(analysis.period)
  {
    var decision := ParseDecision(response, gw, decode);
    if Truthy(decision) {
      o := analysis.FinalizeDecision(decision, now);
    } else {
      o := analysis.FinalizeDecision(FallbackDecision(response), now);
    }
  }

  /**
   * The decision `_make_final_decision` records for a discussion when the
   * decision call is the `n`-th call of `respond`: the call's error, or
   * `FinalDecision` of its reply and of the reply to the repair call after it.
   */
  ghost function DecisionOutcome(info: StockInfo, discussion: string, b: DataBundle, respond: (nat, Call) -> Result<string>,
                                 n: nat, decode: string -> Result<Value>): Result<Value>
  {
    var first := respond(n, DecisionCall(info, discussion, IndicatorsOrEmpty(b)));
    if first.Err? then Err(first.error)
    else Ok(FinalDecision(first.value, respond(n + 1, RepairCall(first.value, RepairMessage(first.value, decode))), decode))
  }

  /**
   * What `_conduct_team_discussion` leaves when it starts at the `n`-th call
   * of `respond` with these reviews: a failed discussion call is the outcome;
   * with reviews, a reply becomes the discussion, and the run passes exactly
   * when that reply is not empty and the decision call answers, recording
   * `DecisionOutcome`.
   */
  ghost predicate Discussed(analysis: StockAnalysis, o: Outcome, info: StockInfo, reviews: map<AgentRole, AgentReview>,
                            b: DataBundle, respond: (nat, Call) -> Result<string>, n: nat, decode: string -> Result<Value>)
    reads analysis
  {
    var reply := respond(n, DiscussionCall(info, AgentsSummary(reviews, AllRoles)));
    && (reply.Err? ==> o == Fail(reply.error))
    && (reply.Ok? && reviews != map[] ==>
          var d := DecisionOutcome(info, reply.value, b, respond, n + 1, decode);
          && analysis.teamDiscussion == VStr(reply.value)
          && (o.Pass? <==> d.Ok? && reply.value != "")
          && (o.Pass? ==> analysis.finalDecision == d.value))
  }

  /**
   * What `perform_analysis` leaves after a non-empty fan-out from `reviews0`
   * starting at the `base`-th call: the fan-out's reviews, a failure when
   * none came back, and the discussion and decision of `Discussed` after the
   * fan-out's calls.
   */
  ghost predicate Performed(analysis: StockAnalysis, o: Outcome, reviews0: map<AgentRole, AgentReview>, info: StockInfo,
                            b: DataBundle, enabled: seq<AgentRole>, respond: (nat, Call) -> Result<string>, base: nat,
                            now: Time, decode: string -> Result<Value>)
    reads analysis
  {
    enabled != [] ==>
      var st := FanOut(reviews0, enabled, PromptsFor(info, b), respond, base, now);
      && analysis.reviews == st.reviews
      && (st.reviews == map[] ==> o.Fail?)
      && Discussed(analysis, o, info, st.reviews, b, respond, base + |st.calls|, decode)
  }

  /**
   * `_make_final_decision`: one decision call, whose error propagates, then
   * `DecideOn` with its reply.
   */
  method MakeFinalDecision(analysis: StockAnalysis, discussion: string, b: DataBundle, gw: Gateway,
                           decode: string -> Result<Value>, now: Time) returns (o: Outcome)
    requires analysis.Valid()
    modifies analysis, gw
    ensures analysis.Valid()
    ensures var req := DecisionCall(old(analysis.stockInfo), discussion, IndicatorsOrEmpty(b));
      var first := gw.respond(|old(gw.log)|, req);
      && (first.Err? ==>
            && o == Fail(first.error) && gw.log == old(gw.log) + [req]
            && analysis.finalDecision == old(analysis.finalDecision) && analysis.status == old(analysis.status))
      && (first.Ok? ==>
            var fix := RepairCall(first.value, RepairMessage(first.value, decode));
            && gw.log == old(gw.log) + [req] + (if NeedsRepair(first.value, decode) then [fix] else [])
            && (o.Fail? <==> !Truthy(old(analysis.teamDiscussion)))
            && (o.Pass? ==> analysis.finalDecision == FinalDecision(first.value, gw.respond(|old(gw.log)| + 1, fix), decode)))
    ensures o.Pass? ==> analysis.status == Completed
    ensures analysis.reviews == old(analysis.reviews) && analysis.teamDiscussion == old(analysis.teamDiscussion)
    ensures analysis.stockInfo == old(analysis.stockInfo) && analysis.id == old(analysis.id) && analysis.period == old(analysis.period)
    ensures o.Fail? ==> analysis.status == old(analysis.status)
  {
    var req := DecisionCall(analysis.stockInfo, discussion, IndicatorsOrEmpty(b));
    var response := gw.Send(req);
    if response.Err? {
      return Fail(response.error);
    }
    o := DecideOn(analysis, response.value, gw, decode, now);
  }

  /**
   * `_conduct_team_discussion`: the summary in the fixed role order, one
   * discussion call (whose error propagates), `conduct_team_discussion`
   * (which raises without reviews), then the decision.
   */
  method ConductTeamDiscussion(analysis: StockAnalysis, b: DataBundle, gw: Gateway,
                               decode: string -> Result<Value>, now: Time) returns (o: Outcome)
    requires analysis.Valid()
    modifies analysis, gw
    ensures analysis.Valid()
    ensures var req := DiscussionCall(old(analysis.stockInfo), AgentsSummary(old(analysis.reviews), AllRoles));
      && |gw.log| >= |old(gw.log)| + 1 && gw.log[|old(gw.log)|] == req && gw.log[..|old(gw.log)|] == old(gw.log)
      && (gw.respond(|old(gw.log)|, req).Err? ==> |gw.log| == |old(gw.log)| + 1)
    ensures Discussed(analysis, o, old(analysis.stockInfo), old(analysis.reviews), b, gw.respond, |old(gw.log)|, decode)
    ensures old(analysis.reviews) == map[] ==> o.Fail? && analysis.teamDiscussion == old(analysis.teamDiscussion)
    ensures o.Pass? ==> analysis.status == Completed && Truthy(analysis.finalDecision)
    ensures o.Fail? ==> analysis.status == old(analysis.status)
    ensures analysis.reviews == old(analysis.reviews) && analysis.stockInfo == old(analysis.stockInfo)
    ensures analysis.period == old(analysis.period)
  {
    var agentsText := BuildAgentsSummary(analysis.reviews);
    var req := DiscussionCall(analysis.stockInfo, agentsText);
    var reply := gw.Send(req);
    if reply.Err? {
      return Fail(reply.error);
    }
    o := analysis.ConductTeamDiscussion(VStr(reply.value), now);
    if o.Fail? {
      return;
    }
    ghost var mid := gw.log;
    o := MakeFinalDecision(analysis, reply.value, b, gw, decode, now);
    assert gw.log[..|mid|] == mid;
    if o.Pass? {
      ghost var first := gw.respond(|mid|, DecisionCall(analysis.stockInfo, reply.value, IndicatorsOrEmpty(b)));
      FinalDecisionSpec(first.value, gw.respond(|mid| + 1, RepairCall(first.value, RepairMessage(first.value, decode))), decode);
    }
  }

  /**
   * One analyst's turn in `perform_analysis` once its prompt is built: the
   * gateway call of `analyze`, then `add_review` with its result; a raised
   * error only costs that review.
   */
  method RunAgent(analysis: StockAnalysis, role: AgentRole, prompt: Result<Prompt>, gw: Gateway, now: Time,
                  ghost st: FanState, ghost log0: seq<Call>)
    requires analysis.Valid() && analysis.status == InProgress
    requires analysis.reviews == st.reviews && gw.log == log0 + st.calls
    modifies analysis, gw
    ensures analysis.Valid() && analysis.status == InProgress
    ensures var next := FanStep(role, st, prompt, gw.respond, |log0|, now);
      analysis.reviews == next.reviews && gw.log == log0 + next.calls
    ensures analysis.stockInfo == old(analysis.stockInfo) && analysis.teamDiscussion == old(analysis.teamDiscussion)
    ensures analysis.period == old(analysis.period)
  {
    var review := Consult(role, prompt, gw, now);
    if prompt.Ok? {
      FanStepCalls(role, st, prompt.value, gw.respond, |log0|, now);
      assert gw.log == log0 + st.calls + [AnalystCall(role, prompt.value)];
    }
    if review.Ok? {
      var added := analysis.AddReview(role, review.value.content, review.value.agentName, now);
    }
  }

  /**
   * The fan-out loop of `perform_analysis`: each enabled analyst in turn, its
   * review (if any) added to the aggregate on the coordinating thread.
   */
  method RunAgents(analysis: StockAnalysis, b: DataBundle, enabled: seq<AgentRole>, gw: Gateway, now: Time)
    requires analysis.Valid() && analysis.status == InProgress
    modifies analysis, gw
    ensures analysis.Valid() && analysis.status == InProgress
    ensures var st := FanOut(old(analysis.reviews), enabled, PromptsFor(old(analysis.stockInfo), b), gw.respond, |old(gw.log)|, now);
      analysis.reviews == st.reviews && gw.log == old(gw.log) + st.calls
    ensures analysis.stockInfo == old(analysis.stockInfo) && analysis.teamDiscussion == old(analysis.teamDiscussion)
    ensures analysis.period == old(analysis.period)
  {
    ghost var reviews0 := analysis.reviews;
    ghost var log0 := gw.log;
    ghost var info := analysis.stockInfo;
    ghost var promptOf := PromptsFor(info, b);
    var i := 0;
    while i < |enabled|
      invariant 0 <= i <= |enabled|
      invariant analysis.Valid() && analysis.status == InProgress
      invariant analysis.stockInfo == info && analysis.teamDiscussion == old(analysis.teamDiscussion)
      invariant analysis.period == old(analysis.period)
      invariant var st := FanOut(reviews0, enabled[..i], promptOf, gw.respond, |log0|, now);
        analysis.reviews == st.reviews && gw.log == log0 + st.calls
    {
      ghost var st := FanOut(reviews0, enabled[..i], promptOf, gw.respond, |log0|, now);
      assert enabled[..i + 1][..i] == enabled[..i];
      var prompt := BuildPrompt(enabled[i], analysis.stockInfo, b);
      RunAgent(analysis, enabled[i], prompt, gw, now, st, log0);
      i := i + 1;
    }
    assert enabled[..|enabled|] == enabled;
  }

  /**
   * `perform_analysis`: `start`, the analysts in enabled order (an empty list
   * makes the thread pool raise), then the discussion and the decision.
   */
  method PerformAnalysis(analysis: StockAnalysis, b: DataBundle, enabled: seq<AgentRole>, gw: Gateway,
                         decode: string -> Result<Value>, now: Time) returns (o: Outcome)
    requires analysis.Valid()
    modifies analysis, gw
    ensures analysis.Valid()
    ensures analysis.status != Created
    ensures enabled == [] ==>
      o == Fail(NoWorkersError) && analysis.status == InProgress
      && analysis.reviews == old(analysis.reviews) && gw.log == old(gw.log)
    ensures enabled != [] ==>
      var st := FanOut(old(analysis.reviews), enabled, PromptsFor(old(analysis.stockInfo), b), gw.respond, |old(gw.log)|, now);
      var n := |old(gw.log)| + |st.calls|;
      && |gw.log| > n && gw.log[..n] == old(gw.log) + st.calls
      && gw.log[n] == DiscussionCall(old(analysis.stockInfo), AgentsSummary(st.reviews, AllRoles))
    ensures Performed(analysis, o, old(analysis.reviews), old(analysis.stockInfo), b, enabled, gw.respond, |old(gw.log)|, now, decode)
    ensures forall r | r in analysis.reviews :: r in old(analysis.reviews) || r in enabled
    ensures o.Pass? ==> analysis.status == Completed && Truthy(analysis.finalDecision)
    ensures o.Fail? ==> analysis.status == InProgress
    ensures analysis.stockInfo == old(analysis.stockInfo) && analysis.period == old(analysis.period)
  {
    analysis.Start(now);
    if enabled == [] {
      return Fail(NoWorkersError);
    }
    ghost var log0 := gw.log;
    RunAgents(analysis, b, enabled, gw, now);
    ghost var log1 := gw.log;
    FanOutKeys(old(analysis.reviews), enabled, PromptsFor(old(analysis.stockInfo), b), gw.respond, |old(gw.log)|, now);
    o := ConductTeamDiscussion(analysis, b, gw, decode, now);
    assert gw.log[..|log1|] == log1;
  }
}
