/**
 * `DeepSeekAIAnalyzer`, the adapter behind the `AIAnalyzer` port: it builds
 * the aggregate from the bundle, keeps only the flags whose keys are role
 * values, runs the orchestrator once and maps the aggregate to the
 * `AnalysisResult` DTO. Unlike the single-stock use case it has no table of
 * short keys, so "risk", "sentiment" and "news" select nothing here.
 */
module AiAnalyzerAdapter {
  import opened Wrappers
  import opened Values
  import opened Bundles
  import opened AnalysisModel
  import opened Llm
  import opened Orchestrator
  import opened Repository
  import opened AnalysisUseCase

  /** What one flag adds: its role when the flag is on and the key is a role value. */
  function KeyRoles(entry: (string, bool)): seq<AgentRole>
  {
    if entry.1 && RoleOf(entry.0).Some? then [RoleOf(entry.0).value] else []
  }

  /** The roles `analyze` passes on, in flag order. */
  function AdapterRoles(enabled: seq<(string, bool)>): (roles: seq<AgentRole>)
    ensures |roles| <= |enabled|
  {
    if |enabled| == 0 then [] else AdapterRoles(enabled[..|enabled| - 1]) + KeyRoles(enabled[|enabled| - 1])
  }

  /** Every role passed on comes from an enabled flag whose key is exactly that role's value. */
  lemma {:induction false} AdapterRolesSound(enabled: seq<(string, bool)>)
    ensures forall k | 0 <= k < |AdapterRoles(enabled)| ::
      exists i | 0 <= i < |enabled| :: enabled[i].1 && enabled[i].0 == AdapterRoles(enabled)[k].Key()
  {
    if |enabled| > 0 {
      var init := enabled[..|enabled| - 1];
      var last := enabled[|enabled| - 1];
      AdapterRolesSound(init);
      assert AdapterRoles(enabled) == AdapterRoles(init) + KeyRoles(last);
      forall k | 0 <= k < |AdapterRoles(enabled)|
        ensures exists i | 0 <= i < |enabled| :: enabled[i].1 && enabled[i].0 == AdapterRoles(enabled)[k].Key()
      {
        if k < |AdapterRoles(init)| {
          var i :| 0 <= i < |init| && init[i].1 && init[i].0 == AdapterRoles(init)[k].Key();
          assert enabled[i] == init[i];
        } else {
          RoleKeyRoundTrip(RoleOf(last.0).value, last.0);
          assert enabled[|enabled| - 1] == last;
        }
      }
    } else {
      assert |AdapterRoles(enabled)| == 0;
    }
  }

  /** Every enabled flag whose key is a role value contributes that role. */
  lemma {:induction false} AdapterRolesComplete(enabled: seq<(string, bool)>)
    ensures forall i, r: AgentRole | 0 <= i < |enabled| && enabled[i].1 && enabled[i].0 == r.Key() :: r in AdapterRoles(enabled)
  {
    if |enabled| > 0 {
      var init := enabled[..|enabled| - 1];
      AdapterRolesComplete(init);
      assert AdapterRoles(enabled) == AdapterRoles(init) + KeyRoles(enabled[|enabled| - 1]);
      forall i, r: AgentRole | 0 <= i < |enabled| && enabled[i].1 && enabled[i].0 == r.Key()
        ensures r in AdapterRoles(enabled)
      {
        RoleKeyRoundTrip(r, enabled[i].0);
        if i < |init| {
          assert enabled[i] == init[i];
        }
      }
    }
  }

  /** The short keys the use case understands select nothing here. */
  lemma ShortKeysDropped()
    ensures AdapterRoles([("risk", true), ("sentiment", true), ("news", true)]) == []
    ensures EnabledRoles([("risk", true), ("sentiment", true), ("news", true)]) == [RiskManagement, MarketSentiment, NewsAnalyst]
  {
    var e := [("risk", true), ("sentiment", true), ("news", true)];
    assert e[..2] == [("risk", true), ("sentiment", true)];
    assert e[..2][..1] == [("risk", true)];
    assert e[..2][..1][..0] == [];
  }

  /** The loop of `analyze` that collects `enabled_agents`. */
  method BuildAdapterRoles(enabled: seq<(string, bool)>) returns (roles: seq<AgentRole>)
    ensures roles == AdapterRoles(enabled)
  {
    roles := [];
    var i := 0;
    while i < |enabled|
      invariant 0 <= i <= |enabled|
      invariant roles == AdapterRoles(enabled[..i])
    {
      assert enabled[..i + 1][..i] == enabled[..i];
      if enabled[i].1 {
        var role := RoleOf(enabled[i].0);
        if role.Some? {
          roles := roles + [role.value];
        }
      }
      i := i + 1;
    }
    assert enabled[..|enabled|] == enabled;
  }

  // ---- the DTO ----

  /** `AnalysisResult` */
  datatype AnalysisResult = AnalysisResult(agentsResults: map<string, Value>, discussion: Value, decision: Value)

  /** The DTO entry of one review: the stored entry plus its role's value under "agent_role". */
  function DtoEntry(role: AgentRole, review: AgentReview): (entry: Dict)
    ensures "agent_role" in entry && entry["agent_role"] == VStr(role.Key())
    ensures entry - {"agent_role"} == ResultEntry(review)
  {
    assert "agent_role" !in ResultEntry(review);
    ResultEntry(review)["agent_role" := VStr(role.Key())]
  }

  /** `results` is the DTO of `reviews`: one entry per reviewed role, under its value, and nothing else. */
  predicate DtoOf(results: map<string, Value>, reviews: map<AgentRole, AgentReview>)
  {
    && (forall r: AgentRole :: r.Key() in results <==> r in reviews)
    && (forall r | r in reviews :: results[r.Key()] == VDict(DtoEntry(r, reviews[r])))
    && (forall k | k in results :: RoleOf(k).Some?)
  }

  /** The DTO and the saved `agents_results` of the same reviews agree on every key, the DTO adding only "agent_role". */
  lemma DtoMatchesSaved(dto: map<string, Value>, saved: map<string, Value>, reviews: map<AgentRole, AgentReview>)
    requires DtoOf(dto, reviews) && ResultsOf(saved, reviews)
    ensures dto.Keys == saved.Keys
    ensures forall k | k in dto :: dto[k].VDict? && saved[k].VDict? && dto[k].entries - {"agent_role"} == saved[k].entries
  {
    forall k | k in dto || k in saved
      ensures k in dto && k in saved && dto[k].VDict? && saved[k].VDict? && dto[k].entries - {"agent_role"} == saved[k].entries
    {
      var r := RoleOf(k).value;
      RoleKeyRoundTrip(r, k);
    }
  }

  /** Filing one more review's DTO entry keeps `DtoOf`. */
  lemma DtoOfExtend(results: map<string, Value>, reviews: map<AgentRole, AgentReview>, todo: set<AgentRole>, role: AgentRole)
    requires role in todo && todo <= reviews.Keys && DtoOf(results, reviews - todo)
    ensures DtoOf(results[role.Key() := VDict(DtoEntry(role, reviews[role]))], reviews - (todo - {role}))
  {
    KeyInjective();
    RoleKeyRoundTrip(role, role.Key());
    assert reviews - (todo - {role}) == (reviews - todo)[role := reviews[role]];
  }

  /** `_map_to_dto`: the reviews' entries, in any order, and the discussion and decision unchanged. */
  method MapToDto(analysis: StockAnalysis) returns (dto: AnalysisResult)
    ensures DtoOf(dto.agentsResults, analysis.reviews)
    ensures dto.discussion == analysis.teamDiscussion && dto.decision == analysis.finalDecision
  {
    var reviews := analysis.reviews;
    var results := map[];
    var todo := reviews.Keys;
    assert reviews - todo == map[];
    while todo != {}
      invariant todo <= reviews.Keys
      invariant DtoOf(results, reviews - todo)
      decreases todo
    {
      var role :| role in todo;
      DtoOfExtend(results, reviews, todo, role);
      results := results[role.Key() := VDict(DtoEntry(role, reviews[role]))];
      todo := todo - {role};
    }
    assert reviews - todo == reviews;
    dto := AnalysisResult(results, analysis.teamDiscussion, analysis.finalDecision);
  }

  /**
   * `analyze`: the aggregate for the bundle's stock and the request's
   * period, one orchestrator run over the role-valued flags (a raised error
   * propagates), and the DTO of the reviews it produced.
   */
  method Analyze(request: StockRequest, bundle: DataBundle, gw: Gateway, decode: string -> Result<Value>,
                 now: Time, generatedId: string) returns (r: Result<AnalysisResult>)
    modifies gw
    ensures StockInfoFromDict(bundle.stockInfo).Err? ==> r.Err? && gw.log == old(gw.log)
    ensures AdapterRoles(request.enabledAnalysts) == [] ==> r.Err?
    ensures r.Ok? ==>
      && StockInfoFromDict(bundle.stockInfo).Ok?
      && DtoOf(r.value.agentsResults, ExpectedReviews(StockInfoFromDict(bundle.stockInfo).value, bundle,
                                                     AdapterRoles(request.enabledAnalysts), gw.respond, |old(gw.log)|, now))
      && Truthy(r.value.decision)
      && var info := StockInfoFromDict(bundle.stockInfo).value;
         var disc := ExpectedDiscussion(info, bundle, AdapterRoles(request.enabledAnalysts), gw.respond, |old(gw.log)|, now);
         && disc.Ok? && r.value.discussion == VStr(disc.value)
         && ExpectedDecision(info, bundle, AdapterRoles(request.enabledAnalysts), gw.respond, |old(gw.log)|, now, decode)
              == Ok(r.value.decision)
  {
    var info := StockInfoFromDict(bundle.stockInfo);
    if info.Err? {
      return Err(info.error);
    }
    var analysis := new StockAnalysis(info.value, None, request.period, now, generatedId);
    var roles := BuildAdapterRoles(request.enabledAnalysts);
    ghost var base := |gw.log|;
    var o := PerformAnalysis(analysis, bundle, roles, gw, decode, now);
    if o.Fail? {
      return Err(o.error);
    }
    PerformedRun(analysis, info.value, bundle, roles, gw.respond, base, now, decode);
    var dto := MapToDto(analysis);
    r := Ok(dto);
  }
}
