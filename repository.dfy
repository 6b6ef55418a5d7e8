/**
 * `SqliteStockAnalysisRepository`: `save` flattens a `StockAnalysis` into the
 * row the analysis database stores, and `find_by_id` rebuilds an aggregate
 * from such a row by replaying it through the aggregate's own methods.
 *
 * The database (`StockAnalysisDatabase`) is a map from record id to the row
 * it returns, assumed to hand back what was stored; new ids are fresh. The
 * clock reading taken by each replayed call is the parameter `now`.
 */
module Repository {
  import opened Wrappers
  import opened Strings
  import opened Numbers
  import opened Values
  import opened AnalysisModel

  /** The analysis database as a table of rows keyed by record id. */
  class Database {
    var records: map<int, Dict>
    var nextId: int

    /** Every stored id is below the next one handed out. */
    predicate Valid()
      reads this
    {
      forall id | id in records :: id < nextId
    }

    constructor ()
      ensures Valid() && records == map[] && nextId == 1
    {
      records := map[];
      nextId := 1;
    }

    /** `save_analysis`: stores the row under a fresh id and returns the id. */
    method SaveAnalysis(row: Dict) returns (id: int)
      requires Valid()
      modifies this
      ensures Valid()
      ensures id == old(nextId) && id !in old(records)
      ensures records == old(records)[id := row] && nextId == old(nextId) + 1
    {
      id := nextId;
      records := records[id := row];
      nextId := nextId + 1;
    }

    /** `get_record_by_id`: the stored row, or `None`. */
    function RecordById(id: int): Option<Dict>
      reads this
    {
      if id in records then Some(records[id]) else None
    }
  }

  // ---- save ----

  /** The stored form of one review: name, raw text, focus areas and time stamp. */
  function ResultEntry(review: AgentReview): Dict
  {
    map["agent_name" := VStr(review.agentName), "analysis" := review.content.rawOutput,
        "focus_areas" := review.content.focusAreas, "timestamp" := VStr(StampText(review.timestamp))]
  }

  /**
   * `results` is the `agents_results` of `reviews`: an entry under a role's
   * value exactly when that role has a review, holding that review's stored
   * form, and no entry under any other key.
   */
  predicate ResultsOf(results: map<string, Value>, reviews: map<AgentRole, AgentReview>)
  {
    && (forall r: AgentRole :: r.Key() in results <==> r in reviews)
    && (forall r | r in reviews :: results[r.Key()] == VDict(ResultEntry(reviews[r])))
    && (forall k | k in results :: RoleOf(k).Some?)
  }

  /** The reviews determine their `agents_results` completely. */
  lemma ResultsOfUnique(m1: map<string, Value>, m2: map<string, Value>, reviews: map<AgentRole, AgentReview>)
    requires ResultsOf(m1, reviews) && ResultsOf(m2, reviews)
    ensures m1 == m2
  {
    forall k | k in m1 || k in m2
      ensures k in m1 && k in m2 && m1[k] == m2[k]
    {
      var r := RoleOf(k).value;
      RoleKeyRoundTrip(r, k);
    }
  }

  /** The row `save` hands to `save_analysis`, around the `agents_results` it built. */
  function SaveRow(info: StockInfo, period: string, results: map<string, Value>, discussion: Value, decision: Value): Dict
  {
    map["symbol" := VStr(info.symbol), "stock_name" := VStr(info.name), "period" := VStr(period),
        "stock_info" := VDict(StockInfoAsDict(info)), "agents_results" := VDict(results),
        "discussion_result" := discussion, "final_decision" := decision]
  }

  /** Filing one more review's entry keeps `ResultsOf`. */
  lemma ResultsOfExtend(results: map<string, Value>, reviews: map<AgentRole, AgentReview>, todo: set<AgentRole>, role: AgentRole)
    requires role in todo && todo <= reviews.Keys && ResultsOf(results, reviews - todo)
    ensures ResultsOf(results[role.Key() := VDict(ResultEntry(reviews[role]))], reviews - (todo - {role}))
  {
    KeyInjective();
    RoleKeyRoundTrip(role, role.Key());
    assert reviews - (todo - {role}) == (reviews - todo)[role := reviews[role]];
  }

  /** The loop of `save` that fills `agents_results`, taking the reviews in any order. */
  method CollectResults(reviews: map<AgentRole, AgentReview>) returns (results: map<string, Value>)
    ensures ResultsOf(results, reviews)
  {
    results := map[];
    var todo := reviews.Keys;
    assert reviews - todo == map[];
    while todo != {}
      invariant todo <= reviews.Keys
      invariant ResultsOf(results, reviews - todo)
      decreases todo
    {
      var role :| role in todo;
      ResultsOfExtend(results, reviews, todo, role);
      results := results[role.Key() := VDict(ResultEntry(reviews[role]))];
      todo := todo - {role};
    }
    assert reviews - todo == reviews;
  }

  /**
   * `save`: one row holding the stock, the period, one entry per review, the
   * discussion and the decision, stored under a fresh id that is returned.
   * The aggregate itself is not touched.
   */
  method Save(analysis: StockAnalysis, db: Database) returns (id: int)
    requires db.Valid()
    modifies db
    ensures db.Valid()
    ensures id !in old(db.records) && db.records.Keys == old(db.records).Keys + {id}
    ensures forall k | k in old(db.records) :: db.records[k] == old(db.records)[k]
    ensures var row := db.records[id];
      && "agents_results" in row && row["agents_results"].VDict?
      && ResultsOf(row["agents_results"].entries, analysis.reviews)
      && row == SaveRow(analysis.stockInfo, analysis.period, row["agents_results"].entries,
                        analysis.teamDiscussion, analysis.finalDecision)
  {
    var results := CollectResults(analysis.reviews);
    id := db.SaveAnalysis(SaveRow(analysis.stockInfo, analysis.period, results,
                                  analysis.teamDiscussion, analysis.finalDecision));
  }

  // ---- find_by_id ----

  const StockInfoTypeError := "AttributeError: stock_info has no setdefault"
  const ResultsTypeError := "AttributeError: agents_results has no items"
  const EntryTypeError := "AttributeError: agent result has no get"
  const AnalysisTypeError := "TypeError: analysis text cannot be sliced"

  /** `raw.get("stock_info") or {}` with the symbol and name filled in from the row when absent, read by `StockInfo.from_dict`. */
  function RowStockInfo(row: Dict): Result<StockInfo>
  {
    var data := Or(Get(row, "stock_info", VNone), VDict(map[]));
    if !data.VDict? then Err(StockInfoTypeError)
    else
      var d1 := if "symbol" in data.entries then data.entries else data.entries["symbol" := Get(row, "symbol", VNone)];
      var d2 := if "name" in d1 then d1 else d1["name" := Get(row, "stock_name", VNone)];
      StockInfoFromDict(d2)
  }

  /** `str(raw.get("period") or "1y")` */
  function RowPeriod(row: Dict): (p: string)
    ensures !Truthy(Get(row, "period", VNone)) ==> p == "1y"
    ensures "period" in row && row["period"].VStr? && row["period"].s != "" ==> p == row["period"].s
  {
    Str(Or(Get(row, "period", VNone), VStr("1y")))
  }

  /** A value `[:200]` can slice: a string or a list. */
  predicate Sliceable(v: Value)
  {
    v.VStr? || v.VList?
  }

  /** `v[:200]`: the first 200 characters of a string, or the first 200 items of a list. */
  function Head200(v: Value): (h: Value)
    requires Sliceable(v)
    ensures v.VStr? ==> h.VStr? && h.s <= v.s && (|h.s| == 200 || h.s == v.s)
    ensures v.VList? ==> h.VList? && h.items <= v.items && (|h.items| == 200 || h.items == v.items)
  {
    if v.VStr? then VStr(v.s[..if |v.s| < 200 then |v.s| else 200])
    else VList(v.items[..if |v.items| < 200 then |v.items| else 200])
  }

  /** A stored review entry the replay can read: a dictionary whose analysis, if any, can be sliced. */
  predicate EntryReadable(entry: Value)
  {
    entry.VDict? && Sliceable(Get(entry.entries, "analysis", VStr("")))
  }

  /** The review content rebuilt from a stored entry: the first 200 characters (or items) as summary, and the whole analysis. */
  function EntryContent(entry: Value): AnalysisContent
    requires EntryReadable(entry)
  {
    var analysis := Get(entry.entries, "analysis", VStr(""));
    AnalysisContent(Head200(analysis), map["full_text" := analysis],
                    Get(entry.entries, "focus_areas", VList([])), analysis)
  }

  function EntryAgentName(entry: Value): string
    requires entry.VDict?
  {
    Str(Get(entry.entries, "agent_name", VStr("")))
  }

  /** The review `add_review` files for a stored entry. */
  function RestoredReview(role: AgentRole, entry: Value, now: Time): AgentReview
    requires EntryReadable(entry)
  {
    AgentReview(role, EntryContent(entry), now, EntryAgentName(entry))
  }

  /** Every entry stored under a role's value can be read back (entries under other keys are skipped unread). */
  predicate ResultsReadable(results: map<string, Value>)
  {
    forall r: AgentRole | r.Key() in results :: EntryReadable(results[r.Key()])
  }

  /**
   * `reviews` are those replayed from the entries whose keys lie in `keys`:
   * one for each role whose value is such a key with a readable entry, rebuilt
   * from that entry.
   */
  predicate RestoredFrom(reviews: map<AgentRole, AgentReview>, results: map<string, Value>, keys: set<string>, now: Time)
  {
    forall r: AgentRole ::
      && (r in reviews <==> r.Key() in keys && r.Key() in results && EntryReadable(results[r.Key()]))
      && (r in reviews ==> reviews[r] == RestoredReview(r, results[r.Key()], now))
  }

  /** The replayed reviews are determined by the entries. */
  lemma RestoredFromUnique(m1: map<AgentRole, AgentReview>, m2: map<AgentRole, AgentReview>,
                           results: map<string, Value>, keys: set<string>, now: Time)
    requires RestoredFrom(m1, results, keys, now) && RestoredFrom(m2, results, keys, now)
    ensures m1 == m2
  {
    assert m1.Keys == m2.Keys;
  }

  lemma EveryRoleListed()
    ensures forall r: AgentRole :: r in AllRoles
  {
    forall r: AgentRole
      ensures r in AllRoles
    {
      assert r == AllRoles[0] || r == AllRoles[1] || r == AllRoles[2] || r == AllRoles[3] || r == AllRoles[4] || r == AllRoles[5];
    }
  }

  /** The reviews replayed from the entries whose keys lie in `keys`. */
  function RestoredReviews(results: map<string, Value>, keys: set<string>, now: Time): (m: map<AgentRole, AgentReview>)
    ensures RestoredFrom(m, results, keys, now)
  {
    EveryRoleListed();
    map r | r in AllRoles && r.Key() in keys && r.Key() in results && EntryReadable(results[r.Key()])
      :: RestoredReview(r, results[r.Key()], now)
  }

  /** What the discussion replay passes to `conduct_team_discussion`: a dictionary's "content", else the text. */
  function DiscussionContent(discussion: Value): Value
  {
    if discussion.VDict? then Get(discussion.entries, "content", VStr(Str(discussion))) else VStr(Str(discussion))
  }

  /** The aggregate `find_by_id` rebuilds, as values. */
  datatype Replayed = Replayed(info: StockInfo, id: string, period: string, reviews: map<AgentRole, AgentReview>,
                               discussion: Value, decision: Value, status: Status)

  /**
   * The replay of a stored row under id `dbId`: the stock information, the
   * reviews of the known roles, then the discussion and the decision when
   * truthy. Unknown role keys are skipped; every other failure propagates.
   */
  function Replay(row: Dict, dbId: int, now: Time): Result<Replayed>
  {
    var info := RowStockInfo(row);
    var resultsValue := Or(Get(row, "agents_results", VNone), VDict(map[]));
    if info.Err? then Err(info.error)
    else if !resultsValue.VDict? then Err(ResultsTypeError)
    else if !ResultsReadable(resultsValue.entries) then Err(EntryTypeError)
    else
      var reviews := RestoredReviews(resultsValue.entries, resultsValue.entries.Keys, now);
      var status := if reviews == map[] then Created else InProgress;
      var discussion := Get(row, "discussion_result", VNone);
      var restored := if Truthy(discussion) then DiscussionContent(discussion) else VNone;
      var decision := Get(row, "final_decision", VNone);
      if Truthy(discussion) && reviews == map[] then Err(NoReviewsError)
      else if Truthy(decision) && !Truthy(restored) then Err(NoDiscussionError)
      else
        Ok(Replayed(info.value, IntText(dbId), RowPeriod(row), reviews, restored,
                    if Truthy(decision) then decision else VNone, if Truthy(decision) then Completed else status))
  }

  /** Replaying one more entry adds its role's review when the key names a role and the entry is readable, and nothing otherwise. */
  lemma RestoredFromStep(reviews: map<AgentRole, AgentReview>, results: map<string, Value>, done: set<string>, key: string, now: Time)
    requires RestoredFrom(reviews, results, done, now) && key in results
    ensures RoleOf(key).Some? && EntryReadable(results[key]) ==>
      RestoredFrom(reviews[RoleOf(key).value := RestoredReview(RoleOf(key).value, results[key], now)], results, done + {key}, now)
    ensures !(RoleOf(key).Some? && EntryReadable(results[key])) ==> RestoredFrom(reviews, results, done + {key}, now)
  {
    forall r: AgentRole
      ensures RoleOf(key) == Some(r) <==> key == r.Key()
    {
      RoleKeyRoundTrip(r, key);
    }
  }

  /**
   * One pass of the review loop of `find_by_id`: a key that names no role is
   * skipped; otherwise the entry is read and its review added, and an entry
   * that cannot be read raises.
   */
  method RestoreEntry(analysis: StockAnalysis, results: map<string, Value>, ghost done: set<string>, key: string, now: Time)
    returns (o: Outcome)
    requires key in results && analysis.Valid()
    requires analysis.status == (if analysis.reviews == map[] then Created else InProgress)
    requires RestoredFrom(analysis.reviews, results, done, now)
    modifies analysis
    ensures analysis.Valid()
    ensures o.Fail? <==> RoleOf(key).Some? && !EntryReadable(results[key])
    ensures o.Pass? ==> RestoredFrom(analysis.reviews, results, done + {key}, now)
    ensures o.Pass? ==> analysis.status == (if analysis.reviews == map[] then Created else InProgress)
    ensures analysis.teamDiscussion == old(analysis.teamDiscussion) && analysis.finalDecision == old(analysis.finalDecision)
    ensures analysis.stockInfo == old(analysis.stockInfo) && analysis.id == old(analysis.id) && analysis.period == old(analysis.period)
  {
    var entry := results[key];
    RestoredFromStep(analysis.reviews, results, done, key, now);
    match RoleOf(key) {
      case None =>
        o := Pass;
      case Some(role) =>
        if !EntryReadable(entry) {
          return Fail(if entry.VDict? then AnalysisTypeError else EntryTypeError);
        }
        o := analysis.AddReview(role, EntryContent(entry), EntryAgentName(entry), now);
        assert role in analysis.reviews;
    }
  }

  /** The review loop of `find_by_id`, taking the entries in any order. */
  method RestoreReviews(analysis: StockAnalysis, results: map<string, Value>, now: Time) returns (o: Outcome)
    requires analysis.Valid() && analysis.reviews == map[] && analysis.status == Created
    modifies analysis
    ensures analysis.Valid()
    ensures o.Pass? <==> ResultsReadable(results)
    ensures o.Pass? ==>
      && RestoredFrom(analysis.reviews, results, results.Keys, now)
      && analysis.status == (if analysis.reviews == map[] then Created else InProgress)
    ensures analysis.teamDiscussion == old(analysis.teamDiscussion) && analysis.finalDecision == old(analysis.finalDecision)
    ensures analysis.stockInfo == old(analysis.stockInfo) && analysis.id == old(analysis.id) && analysis.period == old(analysis.period)
  {
    var todo := results.Keys;
    ghost var done: set<string> := {};
    while todo != {}
      invariant todo <= results.Keys && done == results.Keys - todo
      invariant analysis.Valid()
      invariant forall r: AgentRole | r.Key() in done :: EntryReadable(results[r.Key()])
      invariant RestoredFrom(analysis.reviews, results, done, now)
      invariant analysis.status == (if analysis.reviews == map[] then Created else InProgress)
      invariant analysis.teamDiscussion == old(analysis.teamDiscussion) && analysis.finalDecision == old(analysis.finalDecision)
      invariant analysis.stockInfo == old(analysis.stockInfo) && analysis.id == old(analysis.id) && analysis.period == old(analysis.period)
      decreases todo
    {
      var key :| key in todo;
      o := RestoreEntry(analysis, results, done, key, now);
      if o.Fail? {
        var role := RoleOf(key).value;
        RoleKeyRoundTrip(role, key);
        return;
      }
      forall r: AgentRole | r.Key() == key
        ensures EntryReadable(results[key])
      {
        RoleKeyRoundTrip(r, key);
      }
      todo := todo - {key};
      done := done + {key};
    }
    o := Pass;
  }

  /** Replays the stored discussion and decision onto the aggregate, as `find_by_id` does after the reviews. */
  method RestoreOutcome(analysis: StockAnalysis, row: Dict, now: Time) returns (o: Outcome)
    requires analysis.Valid() && analysis.teamDiscussion == VNone && analysis.finalDecision == VNone
    modifies analysis
    ensures analysis.Valid()
    ensures var discussion := Get(row, "discussion_result", VNone);
      var restored := if Truthy(discussion) then DiscussionContent(discussion) else VNone;
      var decision := Get(row, "final_decision", VNone);
      && (o.Fail? <==> (Truthy(discussion) && old(analysis.reviews) == map[]) || (Truthy(decision) && !Truthy(restored)))
      && (o.Pass? ==>
            && analysis.teamDiscussion == restored
            && analysis.finalDecision == (if Truthy(decision) then decision else VNone)
            && analysis.status == (if Truthy(decision) then Completed else old(analysis.status)))
    ensures analysis.reviews == old(analysis.reviews)
    ensures analysis.stockInfo == old(analysis.stockInfo) && analysis.id == old(analysis.id) && analysis.period == old(analysis.period)
  {
    var discussion := Get(row, "discussion_result", VNone);
    if Truthy(discussion) {
      o := analysis.ConductTeamDiscussion(DiscussionContent(discussion), now);
      if o.Fail? {
        return;
      }
    }
    var decision := Get(row, "final_decision", VNone);
    o := Pass;
    if Truthy(decision) {
      o := analysis.FinalizeDecision(decision, now);
    }
  }

  /**
   * `find_by_id`: `None` for an id `int()` rejects and for a missing or empty
   * row; otherwise the aggregate replayed from the row, or the error the
   * replay raised.
   */
  method FindById(analysisId: string, db: Database, now: Time) returns (r: Result<Option<StockAnalysis>>)
    ensures ParseInt(analysisId).None? ==> r == Ok(None)
    ensures ParseInt(analysisId).Some? ==>
      var row := db.RecordById(ParseInt(analysisId).value);
      && (row.None? || row.value == map[] ==> r == Ok(None))
      && (row.Some? && row.value != map[] ==>
            var expected := Replay(row.value, ParseInt(analysisId).value, now);
            && (r.Err? <==> expected.Err?)
            && (r.Ok? ==>
                  && r.value.Some?
                  && var a := r.value.value;
                  && a.Valid()
                  && a.stockInfo == expected.value.info && a.id == expected.value.id && a.period == expected.value.period
                  && a.reviews == expected.value.reviews && a.teamDiscussion == expected.value.discussion
                  && a.finalDecision == expected.value.decision && a.status == expected.value.status))
  {
    var parsed := ParseInt(analysisId);
    if parsed.None? {
      return Ok(None);
    }
    var dbId := parsed.value;
    var row := db.RecordById(dbId);
    if row.None? || row.value == map[] {
      return Ok(None);
    }
    var raw := row.value;
    var info := RowStockInfo(raw);
    if info.Err? {
      return Err(info.error);
    }
    var analysis := new StockAnalysis(info.value, Some(IntText(dbId)), RowPeriod(raw), now, "");
    var resultsValue := Or(Get(raw, "agents_results", VNone), VDict(map[]));
    if !resultsValue.VDict? {
      return Err(ResultsTypeError);
    }
    var o := RestoreReviews(analysis, resultsValue.entries, now);
    if o.Fail? {
      return Err(o.error);
    }
    ghost var keys := resultsValue.entries.Keys;
    RestoredFromUnique(analysis.reviews, RestoredReviews(resultsValue.entries, keys, now), resultsValue.entries, keys, now);
    o := RestoreOutcome(analysis, raw, now);
    if o.Fail? {
      return Err(o.error);
    }
    r := Ok(Some(analysis));
  }

  // ---- the round trip ----

  /**
   * Each stored entry whose raw output can be sliced (the agents' text
   * always can) reads back as a review with the same raw output, agent name
   * and focus areas, and the first 200 characters as summary.
   */
  lemma EntryRoundTrip(role: AgentRole, review: AgentReview, now: Time)
    requires Sliceable(review.content.rawOutput)
    ensures EntryReadable(VDict(ResultEntry(review)))
    ensures var back := RestoredReview(role, VDict(ResultEntry(review)), now);
      && back.role == role && back.agentName == review.agentName && back.timestamp == now
      && back.content.rawOutput == review.content.rawOutput && back.content.focusAreas == review.content.focusAreas
      && back.content.summary == Head200(review.content.rawOutput)
      && back.content.details == map["full_text" := review.content.rawOutput]
  {
  }

  /** An entry that cannot be sliced is not readable: a stored raw output that is neither text nor a list fails the replay. */
  lemma EntryUnreadable(review: AgentReview)
    ensures EntryReadable(VDict(ResultEntry(review))) <==> Sliceable(review.content.rawOutput)
  {
  }

  /** The stock information of a saved row reads back unchanged. */
  lemma SavedRowInfo(info: StockInfo, period: string, results: map<string, Value>, discussion: Value, decision: Value)
    ensures RowStockInfo(SaveRow(info, period, results, discussion, decision)) == Ok(info)
  {
    StockInfoDictRoundTrip(info);
  }

  /** The other parts of a saved row the replay reads: the entries, the period, the discussion and the decision. */
  lemma SavedRowParts(info: StockInfo, period: string, results: map<string, Value>, discussion: Value, decision: Value)
    ensures var row := SaveRow(info, period, results, discussion, decision);
      && Or(Get(row, "agents_results", VNone), VDict(map[])) == VDict(results)
      && RowPeriod(row) == (if period == "" then "1y" else period)
      && Get(row, "discussion_result", VNone) == discussion && Get(row, "final_decision", VNone) == decision
  {
  }

  /** The entries `save` files are all readable and replay to reviews of the same roles with the same texts. */
  lemma SavedReviews(reviews: map<AgentRole, AgentReview>, results: map<string, Value>, now: Time)
    requires ResultsOf(results, reviews)
    requires forall r | r in reviews :: Sliceable(reviews[r].content.rawOutput)
    ensures ResultsReadable(results)
    ensures var back := RestoredReviews(results, results.Keys, now);
      && back.Keys == reviews.Keys
      && forall r | r in reviews ::
           && back[r].content.rawOutput == reviews[r].content.rawOutput
           && back[r].agentName == reviews[r].agentName
           && back[r].content.focusAreas == reviews[r].content.focusAreas
  {
    var back := RestoredReviews(results, results.Keys, now);
    forall r: AgentRole | r.Key() in results
      ensures EntryReadable(results[r.Key()])
    {
      EntryRoundTrip(r, reviews[r], now);
    }
    forall r: AgentRole
      ensures r in back <==> r in reviews
    {
    }
    forall r | r in reviews
      ensures back[r].content.rawOutput == reviews[r].content.rawOutput && back[r].agentName == reviews[r].agentName
      ensures back[r].content.focusAreas == reviews[r].content.focusAreas
    {
      EntryRoundTrip(r, reviews[r], now);
    }
  }

  /**
   * Replaying a row `save` wrote gives back the stock information, the
   * period (an empty one reads back as "1y"), the reviewed roles with each
   * review's raw text, agent name and focus areas, the discussion and the
   * decision, provided the discussion is text (as the orchestrator records
   * it) and the aggregate's history allows the replay: a truthy discussion
   * needs a review, and a truthy decision a truthy discussion. Time stamps are
   * those of the replay, and summaries lose any "...".
   */
  lemma SaveReplayRoundTrip(info: StockInfo, period: string, reviews: map<AgentRole, AgentReview>, results: map<string, Value>,
                            discussion: Value, decision: Value, dbId: int, now: Time)
    requires ResultsOf(results, reviews)
    requires forall r | r in reviews :: Sliceable(reviews[r].content.rawOutput)
    requires discussion.VStr? || discussion == VNone
    requires Truthy(discussion) ==> reviews != map[]
    requires Truthy(decision) ==> Truthy(discussion)
    ensures var out := Replay(SaveRow(info, period, results, discussion, decision), dbId, now);
      && out.Ok?
      && out.value.info == info && out.value.id == IntText(dbId)
      && out.value.period == (if period == "" then "1y" else period)
      && out.value.reviews.Keys == reviews.Keys
      && (forall r | r in reviews ::
            && out.value.reviews[r].content.rawOutput == reviews[r].content.rawOutput
            && out.value.reviews[r].agentName == reviews[r].agentName
            && out.value.reviews[r].content.focusAreas == reviews[r].content.focusAreas)
      && out.value.discussion == (if Truthy(discussion) then discussion else VNone)
      && out.value.decision == (if Truthy(decision) then decision else VNone)
      && out.value.status == (if Truthy(decision) then Completed else if reviews == map[] then Created else InProgress)
  {
    SavedRowInfo(info, period, results, discussion, decision);
    SavedRowParts(info, period, results, discussion, decision);
    SavedReviews(reviews, results, now);
    var row := SaveRow(info, period, results, discussion, decision);
    var back := RestoredReviews(results, results.Keys, now);
    assert back == map[] <==> reviews == map[] by {
      assert back.Keys == reviews.Keys;
    }
    assert Truthy(discussion) ==> DiscussionContent(discussion) == discussion;
    assert Replay(row, dbId, now) == Ok(Replayed(info, IntText(dbId), RowPeriod(row), back,
      if Truthy(discussion) then discussion else VNone, if Truthy(decision) then decision else VNone,
      if Truthy(decision) then Completed else if back == map[] then Created else InProgress));
  }
}
