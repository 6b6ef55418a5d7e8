/**
 * The single-stock analysis domain: analyst roles, the value objects a review
 * is made of, and the `StockAnalysis` aggregate whose methods move it through
 * CREATED, IN_PROGRESS, COMPLETED and FAILED.
 * Clock readings (`datetime.now()`) and generated identifiers (`uuid4()`) are
 * parameters.
 */
module AnalysisModel {
  import opened Wrappers
  import opened Strings
  import opened Values

  /** A clock reading (`datetime`), to the second. */
  datatype Time = Time(year: nat, month: nat, day: nat, hour: nat, minute: nat, second: nat)

  /** `t.strftime("%Y-%m-%d %H:%M:%S")`: zero-padded fields. */
  function StampText(t: Time): string
  {
    ZFill(NatText(t.year), 4) + "-" + ZFill(NatText(t.month), 2) + "-" + ZFill(NatText(t.day), 2) + " "
    + ZFill(NatText(t.hour), 2) + ":" + ZFill(NatText(t.minute), 2) + ":" + ZFill(NatText(t.second), 2)
  }

  /** The six analyst roles. */
  datatype AgentRole = Technical | Fundamental | FundFlow | RiskManagement | MarketSentiment | NewsAnalyst
  {
    /** The enum's string value. */
    function Key(): string
    {
      match this
      case Technical => "technical"
      case Fundamental => "fundamental"
      case FundFlow => "fund_flow"
      case RiskManagement => "risk_management"
      case MarketSentiment => "market_sentiment"
      case NewsAnalyst => "news_analyst"
    }
  }

  /** `AgentRole(key)`: `None` where the enum raises `ValueError`. */
  function RoleOf(key: string): Option<AgentRole>
  {
    if key == "technical" then Some(Technical)
    else if key == "fundamental" then Some(Fundamental)
    else if key == "fund_flow" then Some(FundFlow)
    else if key == "risk_management" then Some(RiskManagement)
    else if key == "market_sentiment" then Some(MarketSentiment)
    else if key == "news_analyst" then Some(NewsAnalyst)
    else None
  }

  /** Role values and role lookup are inverse: each role is found by its own value and by no other string. */
  lemma RoleKeyRoundTrip(role: AgentRole, key: string)
    ensures RoleOf(role.Key()) == Some(role)
    ensures RoleOf(key) == Some(role) <==> key == role.Key()
  {
  }

  /** Distinct roles have distinct values. */
  lemma KeyInjective()
    ensures forall r1: AgentRole, r2: AgentRole {:trigger r1.Key(), r2.Key()} :: r1.Key() == r2.Key() ==> r1 == r2
  {
    forall r1: AgentRole, r2: AgentRole | r1.Key() == r2.Key()
      ensures r1 == r2
    {
      RoleKeyRoundTrip(r1, r1.Key());
      RoleKeyRoundTrip(r2, r2.Key());
    }
  }

  /** The six roles, in declaration order. */
  const AllRoles: seq<AgentRole> := [Technical, Fundamental, FundFlow, RiskManagement, MarketSentiment, NewsAnalyst]

  /**
   * A review's content. The summary and the raw output are declared `str` but
   * nothing enforces it: an agent stores text, and a replayed row stores
   * whatever its "analysis" entry held (text or a list).
   */
  datatype AnalysisContent = AnalysisContent(summary: Value, details: Dict, focusAreas: Value, rawOutput: Value)

  datatype StockInfo = StockInfo(symbol: string, name: string, sector: string, industry: string, currentPrice: real)

  const PriceConversionError := "ValueError: could not convert current_price to float"

  /**
   * `StockInfo.from_dict`: missing text fields become "", a missing or falsy
   * price becomes 0.0, and a price `float()` rejects raises.
   */
  function StockInfoFromDict(data: Dict): (r: Result<StockInfo>)
    ensures r.Ok? <==> ToFloat(Or(Get(data, "current_price", VFloat(0.0)), VFloat(0.0))).Some?
    ensures r.Ok? ==>
      && r.value.symbol == Str(Get(data, "symbol", VStr("")))
      && r.value.name == Str(Get(data, "name", VStr("")))
      && r.value.sector == Str(Get(data, "sector", VStr("")))
      && r.value.industry == Str(Get(data, "industry", VStr("")))
    ensures r.Ok? && !Truthy(Get(data, "current_price", VNone)) ==> r.value.currentPrice == 0.0
    ensures r.Ok? && "current_price" in data ==> Some(r.value.currentPrice) == ToFloat(Or(data["current_price"], VFloat(0.0)))
  {
    match ToFloat(Or(Get(data, "current_price", VFloat(0.0)), VFloat(0.0)))
    case None => Err(PriceConversionError)
    case Some(price) =>
      Ok(StockInfo(Str(Get(data, "symbol", VStr(""))), Str(Get(data, "name", VStr(""))),
                   Str(Get(data, "sector", VStr(""))), Str(Get(data, "industry", VStr(""))), price))
  }

  /** The dictionary `dataclasses.asdict` gives for a `StockInfo`. */
  function StockInfoAsDict(info: StockInfo): Dict
  {
    map["symbol" := VStr(info.symbol), "name" := VStr(info.name), "sector" := VStr(info.sector),
        "industry" := VStr(info.industry), "current_price" := VFloat(info.currentPrice)]
  }

  /** `from_dict(asdict(info)) == info`: stock information survives a trip through a dictionary. */
  lemma StockInfoDictRoundTrip(info: StockInfo)
    ensures StockInfoFromDict(StockInfoAsDict(info)) == Ok(info)
  {
    var d := StockInfoAsDict(info);
    assert Get(d, "current_price", VFloat(0.0)) == VFloat(info.currentPrice);
    assert Or(VFloat(info.currentPrice), VFloat(0.0)) == VFloat(if info.currentPrice != 0.0 then info.currentPrice else 0.0);
  }

  datatype AgentReview = AgentReview(role: AgentRole, content: AnalysisContent, timestamp: Time, agentName: string)

  const ScoreConversionError := "ValueError: could not convert score to float"

  /** `AgentReview.is_positive`: a score in the details above 60; no score is not positive; a score `float()` rejects raises. */
  function IsPositive(review: AgentReview): (r: Result<bool>)
    ensures Get(review.content.details, "score", VNone) == VNone ==> r == Ok(false)
    ensures r.Ok? && r.value ==> exists x :: ToFloat(review.content.details["score"]) == Some(x) && x > 60.0
    ensures r.Err? <==>
      Get(review.content.details, "score", VNone) != VNone && ToFloat(review.content.details["score"]).None?
  {
    var score := Get(review.content.details, "score", VNone);
    if score == VNone then Ok(false)
    else
      match ToFloat(score)
      case None => Err(ScoreConversionError)
      case Some(x) => Ok(x > 60.0)
  }

  datatype Status = Created | InProgress | Completed | Failed

  const CompletedReviewError := "Cannot add review to a completed analysis."
  const NoReviewsError := "Cannot conduct discussion without any reviews."
  const NoDiscussionError := "Cannot finalize decision before team discussion."

  /**
   * The aggregate root of one stock analysis. `teamDiscussion` and
   * `finalDecision` hold `VNone` until set. The review map is a value, so
   * handing it out (the `reviews` property's copy) never exposes the aggregate
   * to outside mutation.
   */
  class StockAnalysis {
    var id: string
    var stockInfo: StockInfo
    var period: string
    var createdAt: Time
    var updatedAt: Time
    var reviews: map<AgentRole, AgentReview>
    var teamDiscussion: Value
    var finalDecision: Value
    var status: Status

    /** Each review is filed under its own role; a completed analysis has at least one review. */
    predicate Valid()
      reads this
    {
      (forall role | role in reviews :: reviews[role].role == role)
      && (status == Completed ==> reviews != map[])
      && (teamDiscussion != VNone ==> reviews != map[])
    }

    constructor (stockInfo: StockInfo, analysisId: Option<string>, period: string, now: Time, generatedId: string)
      ensures Valid()
      ensures id == (if analysisId.Some? && analysisId.value != "" then analysisId.value else generatedId)
      ensures this.stockInfo == stockInfo && this.period == period
      ensures createdAt == now && updatedAt == now
      ensures reviews == map[] && teamDiscussion == VNone && finalDecision == VNone && status == Created
    {
      id := if analysisId.Some? && analysisId.value != "" then analysisId.value else generatedId;
      this.stockInfo := stockInfo;
      this.period := period;
      createdAt := now;
      updatedAt := now;
      reviews := map[];
      teamDiscussion := VNone;
      finalDecision := VNone;
      status := Created;
    }

    /** `start`: re-entrant, from any status. */
    method Start(now: Time)
      requires Valid()
      modifies this
      ensures Valid()
      ensures status == InProgress && updatedAt == now
      ensures reviews == old(reviews) && teamDiscussion == old(teamDiscussion) && finalDecision == old(finalDecision)
      ensures id == old(id) && stockInfo == old(stockInfo) && period == old(period) && createdAt == old(createdAt)
    {
      status := InProgress;
      updatedAt := now;
    }

    /** `add_review`: refused once completed; otherwise stores (or replaces) the role's review and moves to IN_PROGRESS, even from FAILED. */
    method AddReview(role: AgentRole, content: AnalysisContent, agentName: string, now: Time) returns (o: Outcome)
      requires Valid()
      modifies this
      ensures Valid()
      ensures o.Fail? <==> old(status) == Completed
      ensures o.Fail? ==> o.error == CompletedReviewError && status == old(status) && reviews == old(reviews) && updatedAt == old(updatedAt)
      ensures o.Pass? ==>
        reviews == old(reviews)[role := AgentReview(role, content, now, agentName)] && status == InProgress && updatedAt == now
      ensures teamDiscussion == old(teamDiscussion) && finalDecision == old(finalDecision)
      ensures id == old(id) && stockInfo == old(stockInfo) && period == old(period) && createdAt == old(createdAt)
    {
      if status == Completed {
        return Fail(CompletedReviewError);
      }
      reviews := reviews[role := AgentReview(role, content, now, agentName)];
      status := InProgress;
      updatedAt := now;
      o := Pass;
    }

    /** `conduct_team_discussion`: needs at least one review; records the text whatever the status. */
    method ConductTeamDiscussion(discussion: Value, now: Time) returns (o: Outcome)
      requires Valid()
      modifies this
      ensures Valid()
      ensures o.Fail? <==> old(reviews) == map[]
      ensures o.Fail? ==> o.error == NoReviewsError && teamDiscussion == old(teamDiscussion) && updatedAt == old(updatedAt)
      ensures o.Pass? ==> teamDiscussion == discussion && updatedAt == now
      ensures reviews == old(reviews) && finalDecision == old(finalDecision) && status == old(status)
      ensures id == old(id) && stockInfo == old(stockInfo) && period == old(period) && createdAt == old(createdAt)
    {
      if reviews == map[] {
        return Fail(NoReviewsError);
      }
      teamDiscussion := discussion;
      updatedAt := now;
      o := Pass;
    }

    /** `finalize_decision`: needs a truthy discussion; records the decision and completes the analysis. */
    method FinalizeDecision(decision: Value, now: Time) returns (o: Outcome)
      requires Valid()
      modifies this
      ensures Valid()
      ensures o.Fail? <==> !Truthy(old(teamDiscussion))
      ensures o.Fail? ==>
        o.error == NoDiscussionError && finalDecision == old(finalDecision) && status == old(status) && updatedAt == old(updatedAt)
      ensures o.Pass? ==> finalDecision == decision && status == Completed && updatedAt == now
      ensures reviews == old(reviews) && teamDiscussion == old(teamDiscussion)
      ensures id == old(id) && stockInfo == old(stockInfo) && period == old(period) && createdAt == old(createdAt)
    {
      if !Truthy(teamDiscussion) {
        return Fail(NoDiscussionError);
      }
      finalDecision := decision;
      status := Completed;
      updatedAt := now;
      o := Pass;
    }

    /** `fail`: unconditional; the reason is not recorded. */
    method MarkFailed(reason: string, now: Time)
      requires Valid()
      modifies this
      ensures Valid()
      ensures status == Failed && updatedAt == now
      ensures reviews == old(reviews) && teamDiscussion == old(teamDiscussion) && finalDecision == old(finalDecision)
      ensures id == old(id) && stockInfo == old(stockInfo) && period == old(period) && createdAt == old(createdAt)
    {
      status := Failed;
      updatedAt := now;
    }
  }
}
