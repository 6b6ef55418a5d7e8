/**
 * `AnalyzeMainForceUseCase`: fetch the candidates, keep those inside the
 * caller's bounds, summarise them, run the three analyst calls and the
 * final selection, and save the run when it got far enough. The provider is
 * a port given as a function (the wencai adapter is
 * `WencaiProvider.GetMainForceStocks`), the analyzer is
 * `MainForceAnalyzer.Analyzer`, the repository is an `Archive`, and the
 * run's duration is read from the caller's clock.
 */
module MainForceUseCase {
  import opened Wrappers
  import opened Strings
  import opened Values
  import opened Sorting
  import opened Lists
  import opened MainForceModel
  import opened MainForceAnalyzer
  import WencaiProvider

  // ---- _generate_summary ----

  function Sum(xs: seq<real>): real
  {
    if |xs| == 0 then 0.0 else Sum(xs[..|xs| - 1]) + xs[|xs| - 1]
  }

  /** `sum(xs) / count if count > 0 else 0` */
  function Average(xs: seq<real>): real
  {
    if |xs| == 0 then 0.0 else Sum(xs) / |xs| as real
  }

  /** A sum of values within bounds lies within the bounds times the count. */
  lemma {:induction false} SumWithin(xs: seq<real>, lo: real, hi: real)
    requires forall i | 0 <= i < |xs| :: lo <= xs[i] <= hi
    ensures |xs| as real * lo <= Sum(xs) <= |xs| as real * hi
  {
    if |xs| > 0 {
      SumWithin(xs[..|xs| - 1], lo, hi);
    }
  }

  /** The average of values within bounds lies within the bounds. */
  lemma AverageWithin(xs: seq<real>, lo: real, hi: real)
    requires |xs| > 0 && forall i | 0 <= i < |xs| :: lo <= xs[i] <= hi
    ensures lo <= Average(xs) <= hi
  {
    SumWithin(xs, lo, hi);
    var n := |xs| as real;
    assert Sum(xs) / n >= (n * lo) / n;
    assert Sum(xs) / n <= (n * hi) / n;
  }

  function RangeOf(s: Stock): real { s.rangeChange }

  function CapOf(s: Stock): real { s.marketCap }

  /** Each industry with its number of stocks, in order of first appearance. */
  function Counted(stocks: seq<Stock>): (r: seq<(string, nat)>)
    ensures |r| == |Industries(stocks)|
    ensures forall i | 0 <= i < |r| :: r[i] == (Industries(stocks)[i], |Members(stocks, Industries(stocks)[i])|)
  {
    var inds := Industries(stocks);
    seq(|inds|, i requires 0 <= i < |inds| => (inds[i], |Members(stocks, inds[i])|))
  }

  function CountKey(e: (string, nat)): Key
  {
    Fin(e.1 as real)
  }

  /** `sorted(industries.items(), key=count, reverse=True)[:5]` */
  function TopCounts(stocks: seq<Stock>): seq<(string, nat)>
  {
    Take(SortDesc(Counted(stocks), CountKey), 5)
  }

  /**
   * Five industries, or all of them when there are fewer, each listed once with
   * its true number of stocks, most stocks first; no industry left out holds
   * more stocks than a listed one.
   */
  lemma TopCountsSpec(stocks: seq<Stock>)
    ensures var r := TopCounts(stocks);
      |r| == (if |Industries(stocks)| < 5 then |Industries(stocks)| else 5)
      && (forall i | 0 <= i < |r| :: r[i].0 in Industries(stocks) && r[i].1 == |Members(stocks, r[i].0)| && r[i].1 > 0)
      && (forall i, j | 0 <= i < j < |r| :: r[i].1 >= r[j].1)
      && (forall i, j | 0 <= i < j < |r| :: r[i].0 != r[j].0)
      && (forall ind | ind in Industries(stocks) && (forall i | 0 <= i < |r| :: r[i].0 != ind) ::
            forall i | 0 <= i < |r| :: r[i].1 >= |Members(stocks, ind)|)
  {
    TopCountsMembers(stocks);
    TopCountsOrdered(stocks);
    TopCountsDistinct(stocks);
    TopCountsLargest(stocks);
  }

  lemma TopCountsMembers(stocks: seq<Stock>)
    ensures var r := TopCounts(stocks);
      |r| == (if |Industries(stocks)| < 5 then |Industries(stocks)| else 5)
      && (forall i | 0 <= i < |r| :: r[i].0 in Industries(stocks) && r[i].1 == |Members(stocks, r[i].0)| && r[i].1 > 0)
  {
    var c := Counted(stocks);
    var r := TopCounts(stocks);
    TopSpec(c, CountKey, 5);
    forall i | 0 <= i < |r| ensures r[i].0 in Industries(stocks) && r[i].1 == |Members(stocks, r[i].0)| && r[i].1 > 0 {
      assert r[i] in multiset(c);
      var m :| 0 <= m < |c| && c[m] == r[i];
    }
  }

  lemma TopCountsOrdered(stocks: seq<Stock>)
    ensures var r := TopCounts(stocks);
      forall i, j | 0 <= i < j < |r| :: r[i].1 >= r[j].1
  {
    var c := Counted(stocks);
    var r := TopCounts(stocks);
    TopDescending(c, CountKey, 5);
    forall i, j | 0 <= i < j < |r| ensures r[i].1 >= r[j].1 {
      assert AtLeast(CountKey(r[i]), CountKey(r[j]));
    }
  }

  /** No industry is listed twice among the top five. */
  lemma TopCountsDistinct(stocks: seq<Stock>)
    ensures var r := TopCounts(stocks);
      forall i, j | 0 <= i < j < |r| :: r[i].0 != r[j].0
  {
    var c := Counted(stocks);
    var inds := Industries(stocks);
    assert forall i, j | 0 <= i < j < |c| :: c[i] != c[j] by {
      forall i, j | 0 <= i < j < |c| ensures c[i] != c[j] {
        assert c[i].0 == inds[i] && c[j].0 == inds[j];
      }
    }
    TopDistinct(c, CountKey, 5);
    TopSpec(c, CountKey, 5);
    var r := TopCounts(stocks);
    forall i, j | 0 <= i < j < |r| ensures r[i].0 != r[j].0 {
      assert r[i] in multiset(c) && r[j] in multiset(c);
      var m :| 0 <= m < |c| && c[m] == r[i];
      var l :| 0 <= l < |c| && c[l] == r[j];
      assert r[i] != r[j];
    }
  }

  /** No industry left out of the top five holds more stocks than a listed one. */
  lemma TopCountsLargest(stocks: seq<Stock>)
    ensures var r := TopCounts(stocks);
      forall ind | ind in Industries(stocks) && (forall i | 0 <= i < |r| :: r[i].0 != ind) ::
        forall i | 0 <= i < |r| :: r[i].1 >= |Members(stocks, ind)|
  {
    var c := Counted(stocks);
    var r := TopCounts(stocks);
    forall ind | ind in Industries(stocks) && (forall i | 0 <= i < |r| :: r[i].0 != ind)
      ensures forall i | 0 <= i < |r| :: r[i].1 >= |Members(stocks, ind)|
    {
      var m :| 0 <= m < |c| && Industries(stocks)[m] == ind;
      assert c[m] == (ind, |Members(stocks, ind)|);
      assert c[m] !in r;
      TopAbove(c, CountKey, 5, c[m]);
      forall i | 0 <= i < |r| ensures r[i].1 >= |Members(stocks, ind)| {
        assert AtLeast(CountKey(r[i]), CountKey(c[m]));
      }
    }
  }

  function CountTag(e: (string, nat)): string
  {
    e.0 + "(" + NatText(e.1) + ")"
  }

  /** The summary text: the count, the two averages and the five largest industries. */
  function SummaryText(stocks: seq<Stock>): string
  {
    "本次共筛选出 " + NatText(|stocks|) + " 只主力资金净流入股票。\n"
    + "平均区间涨跌幅: " + Fixed2(Average(Map(stocks, RangeOf))) + "%，平均市值: " + Fixed2(Average(Map(stocks, CapOf))) + "亿。\n"
    + "主要分布行业: " + Join(Map(TopCounts(stocks), CountTag), ", ") + "。"
  }

  /** The counting loop: each industry, in order of appearance, with its number of stocks. */
  method CountIndustries(stocks: seq<Stock>) returns (order: seq<string>, counts: map<string, nat>)
    ensures order == Industries(stocks)
    ensures forall ind | ind in order :: ind in counts && counts[ind] == |Members(stocks, ind)|
    ensures forall ind | ind in counts :: ind in order
  {
    order, counts := [], map[];
    for i := 0 to |stocks|
      invariant order == Industries(stocks[..i])
      invariant forall ind | ind in order :: ind in counts && counts[ind] == |Members(stocks[..i], ind)|
      invariant forall ind | ind in counts :: ind in order
    {
      order, counts := CountStock(stocks, i, order, counts);
    }
    assert stocks[..|stocks|] == stocks;
  }

  /** One pass of the counting loop: stock `i` adds one to its industry's count, which starts at 0 if new. */
  method CountStock(stocks: seq<Stock>, i: nat, order: seq<string>, counts: map<string, nat>)
    returns (order': seq<string>, counts': map<string, nat>)
    requires i < |stocks| && order == Industries(stocks[..i])
    requires forall ind | ind in order :: ind in counts && counts[ind] == |Members(stocks[..i], ind)|
    requires forall ind | ind in counts :: ind in order
    ensures order' == Industries(stocks[..i + 1])
    ensures forall ind | ind in order' :: ind in counts' && counts'[ind] == |Members(stocks[..i + 1], ind)|
    ensures forall ind | ind in counts' :: ind in order'
  {
    var ind := stocks[i].industry;
    assert ind in counts <==> ind in order;
    var count := if ind in counts then counts[ind] else 0;
    order' := order;
    if ind !in counts {
      order' := order + [ind];
    }
    counts' := counts[ind := count + 1];
    assert order' == Industries(stocks[..i + 1]) by {
      IndustriesStep(stocks, i);
    }
    assert forall x | x in counts' :: counts'[x] == |Members(stocks[..i + 1], x)| by {
      if ind !in counts {
        NoMembers(stocks[..i], ind);
      }
      CountsAfter(stocks, i, counts);
    }
  }

  /** Adding one to the count of stock `i`'s industry (0 if new) gives the counts of one more stock. */
  lemma CountsAfter(stocks: seq<Stock>, i: nat, counts: map<string, nat>)
    requires i < |stocks|
    requires forall x | x in counts :: counts[x] == |Members(stocks[..i], x)|
    requires stocks[i].industry !in counts ==> Members(stocks[..i], stocks[i].industry) == []
    ensures var ind := stocks[i].industry;
      var counts' := counts[ind := (if ind in counts then counts[ind] else 0) + 1];
      forall x | x in counts' :: counts'[x] == |Members(stocks[..i + 1], x)|
  {
    var ind := stocks[i].industry;
    var counts' := counts[ind := (if ind in counts then counts[ind] else 0) + 1];
    forall x | x in counts' ensures counts'[x] == |Members(stocks[..i + 1], x)| {
      MembersStep(stocks, i, x);
      if x == ind {
        assert |Members(stocks[..i + 1], x)| == |Members(stocks[..i], x)| + 1;
      } else {
        assert counts'[x] == counts[x] && Members(stocks[..i + 1], x) == Members(stocks[..i], x);
      }
    }
  }

  /** `_generate_summary` */
  method GenerateSummary(stocks: seq<Stock>) returns (text: string)
    ensures text == SummaryText(stocks)
  {
    var order, counts := CountIndustries(stocks);
    var items := seq(|order|, i requires 0 <= i < |order| => (order[i], counts[order[i]]));
    forall i | 0 <= i < |items| ensures items[i] == Counted(stocks)[i] {
    }
    assert items == Counted(stocks);
    var top := Take(SortDesc(items, CountKey), 5);
    var avgChange := Average(Map(stocks, RangeOf));
    var avgCap := Average(Map(stocks, CapOf));
    text := "本次共筛选出 " + NatText(|stocks|) + " 只主力资金净流入股票。\n"
      + "平均区间涨跌幅: " + Fixed2(avgChange) + "%，平均市值: " + Fixed2(avgCap) + "亿。\n"
      + "主要分布行业: " + Join(Map(top, CountTag), ", ") + "。";
  }

  // ---- execute ----

  /** The arguments of `execute`. */
  datatype Inputs = Inputs(
    daysAgo: int, finalN: int, maxRangeChange: real, minMarketCap: real, maxMarketCap: real,
    startDate: Option<string>)

  /** The defaults: 10 days, 5 picks, at most 20% change, a cap between 50 and 2000 (100 million yuan). */
  const Defaults := Inputs(10, 5, 20.0, 50.0, 2000.0, None)

  /** The parameters recorded on the analysis. */
  function Params(inp: Inputs): (d: Dict)
    ensures "days_ago" in d && d["days_ago"] == VInt(inp.daysAgo)
    ensures "final_n" in d && d["final_n"] == VInt(inp.finalN)
    ensures "max_range_change" in d && d["max_range_change"] == VFloat(inp.maxRangeChange)
    ensures "min_market_cap" in d && d["min_market_cap"] == VFloat(inp.minMarketCap)
    ensures "max_market_cap" in d && d["max_market_cap"] == VFloat(inp.maxMarketCap)
    ensures "start_date" in d && d["start_date"] == (if inp.startDate.Some? then VStr(inp.startDate.value) else VNone)
  {
    map[]["start_date" := if inp.startDate.Some? then VStr(inp.startDate.value) else VNone]
      ["max_market_cap" := VFloat(inp.maxMarketCap)]["min_market_cap" := VFloat(inp.minMarketCap)]
      ["max_range_change" := VFloat(inp.maxRangeChange)]["final_n" := VInt(inp.finalN)]["days_ago" := VInt(inp.daysAgo)]
  }

  /** What the provider is asked for: the bounds, and no top-N cut. */
  function ProviderRequest(inp: Inputs): WencaiProvider.Request
  {
    WencaiProvider.Request(inp.startDate, Some(inp.daysAgo), Some(inp.minMarketCap), Some(inp.maxMarketCap),
                           Some(inp.maxRangeChange), None)
  }

  /** The business filter: change at most the maximum, cap within both bounds. */
  predicate Eligible(inp: Inputs, s: Stock)
  {
    s.rangeChange <= inp.maxRangeChange && inp.minMarketCap <= s.marketCap <= inp.maxMarketCap
  }

  /** The candidates the use case keeps, in the provider's order. */
  function Shortlist(inp: Inputs, stocks: seq<Stock>): (r: seq<Stock>)
    ensures forall i | 0 <= i < |r| :: Eligible(inp, r[i])
  {
    Lists.Filter(stocks, s => Eligible(inp, s))
  }

  /** The kept stocks are exactly the eligible candidates, and their averages stay within the bounds. */
  lemma ShortlistSpec(inp: Inputs, stocks: seq<Stock>)
    ensures forall s | s in Shortlist(inp, stocks) :: s in stocks && Eligible(inp, s)
    ensures forall k | 0 <= k < |stocks| && Eligible(inp, stocks[k]) :: stocks[k] in Shortlist(inp, stocks)
    ensures var r := Shortlist(inp, stocks);
      |r| > 0 ==> Average(Map(r, RangeOf)) <= inp.maxRangeChange
                  && inp.minMarketCap <= Average(Map(r, CapOf)) <= inp.maxMarketCap
  {
    var p := s => Eligible(inp, s);
    var r := Lists.Filter(stocks, p);
    FilterSubset(stocks, p);
    FilterKeepsOrder(stocks, p);
    forall k | 0 <= k < |stocks| && Eligible(inp, stocks[k]) ensures stocks[k] in r {
      assert p(stocks[k]);
      var idx := Lists.Kept(stocks, p);
      var m :| 0 <= m < |idx| && idx[m] == k;
      assert r[m] == stocks[k];
    }
    if |r| > 0 {
      MinBound(Map(r, RangeOf), inp.maxRangeChange);
      AverageWithin(Map(r, CapOf), inp.minMarketCap, inp.maxMarketCap);
    }
  }

  /** Values with an upper bound average below it. */
  lemma MinBound(xs: seq<real>, hi: real)
    requires |xs| > 0 && forall i | 0 <= i < |xs| :: xs[i] <= hi
    ensures Average(xs) <= hi
  {
    LowestOf(xs);
    var m := Lowest(xs);
    AverageWithin(xs, m, hi);
  }

  function Lowest(xs: seq<real>): real
    requires |xs| > 0
  {
    if |xs| == 1 then xs[0]
    else
      var m := Lowest(xs[..|xs| - 1]);
      if xs[|xs| - 1] < m then xs[|xs| - 1] else m
  }

  lemma {:induction false} LowestOf(xs: seq<real>)
    requires |xs| > 0
    ensures forall i | 0 <= i < |xs| :: Lowest(xs) <= xs[i]
  {
    if |xs| > 1 {
      LowestOf(xs[..|xs| - 1]);
    }
  }

  /**
   * The repository port: saving appends the analysis and hands back its
   * row id (one more than the rows before it); a broken store raises,
   * which `execute` swallows.
   */
  class Archive {
    var records: seq<Analysis>
    const broken: bool

    constructor (broken: bool)
      ensures records == [] && this.broken == broken
    {
      records := [];
      this.broken := broken;
    }

    method Save(a: Analysis) returns (r: Result<int>)
      modifies this
      ensures broken ==> r.Err? && records == old(records)
      ensures !broken ==> r == Ok(|old(records)| + 1) && records == old(records) + [a]
    {
      if broken {
        return Err("database error");
      }
      records := records + [a];
      return Ok(|records|);
    }
  }

  const NothingKept := "过滤后没有符合条件的股票"
  const NoRecommendation := "AI未能生成有效推荐结果(解析为空)"

  /** Where a run that got candidates ends, given the outcome of the selection. */
  function Settled(a: Analysis, outcome: (Result<seq<Recommendation>>, seq<Stock>)): (r: Analysis)
    ensures r.filteredStocks == outcome.1
    ensures r.params == a.params && r.id == a.id && r.rawStocks == a.rawStocks && r.totalTime == a.totalTime
    ensures outcome.0.Err? ==> !r.success && r.error == Some(outcome.0.error) && r.recommendations == a.recommendations
    ensures outcome.0.Ok? && outcome.0.value == [] ==> !r.success && r.error == Some(NoRecommendation)
    ensures outcome.0.Ok? && outcome.0.value != [] ==> r.success && r.error == a.error && r.recommendations == outcome.0.value
    ensures a.error.None? ==> (r.success <==> r.error.None?) && (r.success ==> r.recommendations != [])
  {
    var (sel, updated) := outcome;
    if sel.Err? then a.(filteredStocks := updated, error := Some(sel.error), success := false)
    else if sel.value == [] then a.(filteredStocks := updated, recommendations := [], error := Some(NoRecommendation), success := false)
    else a.(filteredStocks := updated, recommendations := sel.value, success := true)
  }

  /**
   * The analysis the analyst calls settle when they are the `n`-th to
   * `n + 3`-th calls answered by `respond`: the three analyses with the
   * summary, then the selection with their replies.
   */
  function Analysed(a: Analysis, kept: seq<Stock>, summary: string, finalN: int, respond: (nat, Call) -> string, n: nat,
                    decode: string -> Result<Value>): Analysis
  {
    var fund := respond(n, FundFlowCall(summary, kept));
    var industry := respond(n + 1, IndustryCall(summary, kept));
    var fundamental := respond(n + 2, FundamentalCall(summary, kept));
    Settled(a.(fundFlowAnalysis := Some(fund), industryAnalysis := Some(industry), fundamentalAnalysis := Some(fundamental)),
            SelectionOutcome(kept, respond(n + 3, SelectionCall(finalN, kept, fund, industry, fundamental)), decode))
  }

  /** The use case over its three ports. */
  class AnalyzeMainForce {
    const provider: WencaiProvider.Request -> (bool, seq<Stock>, string)
    const analyzer: Analyzer
    const archive: Archive

    constructor (provider: WencaiProvider.Request -> (bool, seq<Stock>, string), analyzer: Analyzer, archive: Archive)
      ensures this.provider == provider && this.analyzer == analyzer && this.archive == archive
    {
      this.provider := provider;
      this.analyzer := analyzer;
      this.archive := archive;
    }

    /** The three analyst calls on the kept stocks, each with the summary, in order. */
    method Consult(kept: seq<Stock>, summary: string) returns (fund: string, industry: string, fundamental: string)
      modifies analyzer.client
      ensures var c := analyzer.client; var n := |old(c.log)|;
        && c.log == old(c.log) + [FundFlowCall(summary, kept), IndustryCall(summary, kept), FundamentalCall(summary, kept)]
        && fund == c.respond(n, FundFlowCall(summary, kept))
        && industry == c.respond(n + 1, IndustryCall(summary, kept))
        && fundamental == c.respond(n + 2, FundamentalCall(summary, kept))
    {
      ghost var log0 := analyzer.client.log;
      fund := analyzer.AnalyzeFundFlow(kept, summary);
      industry := analyzer.AnalyzeIndustry(kept, summary);
      assert analyzer.client.log == log0 + [FundFlowCall(summary, kept), IndustryCall(summary, kept)];
      fundamental := analyzer.AnalyzeFundamental(kept, summary);
    }

    /**
     * The analyst calls and the selection on the kept stocks: four calls,
     * the three analyses with the summary, the selection with their replies,
     * and the analysis settled by the selection's outcome.
     */
    method Analyze(a: Analysis, kept: seq<Stock>, summary: string, finalN: int) returns (r: Analysis)
      modifies analyzer.client
      ensures var c := analyzer.client; var n := |old(c.log)|;
        var fund := c.respond(n, FundFlowCall(summary, kept));
        var industry := c.respond(n + 1, IndustryCall(summary, kept));
        var fundamental := c.respond(n + 2, FundamentalCall(summary, kept));
        var pick := SelectionCall(finalN, kept, fund, industry, fundamental);
        && c.log == old(c.log) + [FundFlowCall(summary, kept), IndustryCall(summary, kept),
                                   FundamentalCall(summary, kept), pick]
        && r == Analysed(a, kept, summary, finalN, c.respond, n, analyzer.decode)
      ensures r.params == a.params && r.id == a.id && r.rawStocks == a.rawStocks && r.totalTime == a.totalTime
      ensures a.error.None? ==> (r.success <==> r.error.None?) && (r.success ==> r.recommendations != [])
    {
      var fund, industry, fundamental := Consult(kept, summary);
      var sel, updated := analyzer.SelectBestStocks(kept, fund, industry, fundamental, finalN);
      r := Settled(a.(fundFlowAnalysis := Some(fund), industryAnalysis := Some(industry), fundamentalAnalysis := Some(fundamental)),
                   (sel, updated));
    }

    /**
     * The part of the `try` block after a successful fetch: the stocks are
     * filtered, and only a non-empty shortlist is summarised and analysed.
     */
    method Proceed(a: Analysis, inp: Inputs) returns (r: Analysis)
      requires a.error.None?
      modifies analyzer.client
      ensures r.params == a.params && r.id == a.id && r.rawStocks == a.rawStocks && r.totalTime == a.totalTime
      ensures Shortlist(inp, a.rawStocks) == [] ==>
        r == a.(filteredStocks := [], error := Some(NothingKept)) && analyzer.client.log == old(analyzer.client.log)
      ensures var kept := Shortlist(inp, a.rawStocks);
        kept != [] ==>
          && |analyzer.client.log| == |old(analyzer.client.log)| + 4
          && analyzer.client.log[|old(analyzer.client.log)|] == FundFlowCall(SummaryText(kept), kept)
          && (r.success <==> r.error.None?) && (r.success ==> r.recommendations != [])
          && r == Analysed(a.(filteredStocks := kept), kept, SummaryText(kept), inp.finalN, analyzer.client.respond,
                           |old(analyzer.client.log)|, analyzer.decode)
    {
      var kept := Shortlist(inp, a.rawStocks);
      r := a.(filteredStocks := kept);
      if kept == [] {
        return r.(error := Some(NothingKept));
      }
      var summary := GenerateSummary(kept);
      ghost var log0 := analyzer.client.log;
      r := Analyze(r, kept, summary, inp.finalN);
      assert analyzer.client.log[|log0|] == FundFlowCall(summary, kept);
    }

    /** The `try` block: fetch, then filter, summarise and analyse. */
    method Run(inp: Inputs) returns (a: Analysis)
      modifies analyzer.client
      ensures var (ok, stocks, msg) := provider(ProviderRequest(inp));
        && a.params == Params(inp) && a.id.None? && a.totalTime == 0.0
        && (!ok ==> a == NewAnalysis(Params(inp)).(error := Some(msg)) && analyzer.client.log == old(analyzer.client.log))
        && (ok ==> a.rawStocks == stocks)
        && (ok && Shortlist(inp, stocks) == [] ==>
              a.filteredStocks == [] && !a.success && a.error == Some(NothingKept)
              && analyzer.client.log == old(analyzer.client.log))
        && (ok && Shortlist(inp, stocks) != [] ==>
              |analyzer.client.log| == |old(analyzer.client.log)| + 4
              && analyzer.client.log[|old(analyzer.client.log)|] == FundFlowCall(SummaryText(Shortlist(inp, stocks)), Shortlist(inp, stocks))
              && (a.success <==> a.error.None?) && (a.success ==> a.recommendations != [])
              && a == Analysed(NewAnalysis(Params(inp)).(rawStocks := stocks, filteredStocks := Shortlist(inp, stocks)),
                               Shortlist(inp, stocks), SummaryText(Shortlist(inp, stocks)), inp.finalN,
                               analyzer.client.respond, |old(analyzer.client.log)|, analyzer.decode))
    {
      a := NewAnalysis(Params(inp));
      var (ok, stocks, msg) := provider(ProviderRequest(inp));
      if !ok {
        return a.(error := Some(msg));
      }
      a := Proceed(a.(rawStocks := stocks), inp);
    }

    /**
     * `execute`: the run, its duration (read from the caller's clock), and
     * the save of every run that succeeded or at least got candidates; a
     * failed save leaves the analysis without an id.
     */
    method Execute(inp: Inputs, elapsed: real) returns (a: Analysis)
      modifies analyzer.client, archive
      ensures a.params == Params(inp) && a.totalTime == elapsed
      ensures var saves := a.success || a.rawStocks != [];
        && (!saves || archive.broken ==> a.id.None? && archive.records == old(archive.records))
        && (saves && !archive.broken ==>
              a.id == Some(|old(archive.records)| + 1) && archive.records == old(archive.records) + [a.(id := None)])
      ensures var (ok, stocks, msg) := provider(ProviderRequest(inp));
        && (!ok ==> !a.success && a.error == Some(msg) && a.rawStocks == [] && a.id.None?)
        && (ok ==> a.rawStocks == stocks)
        && (ok && Shortlist(inp, stocks) == [] ==> !a.success && a.error == Some(NothingKept) && a.filteredStocks == [])
        && (ok && Shortlist(inp, stocks) != [] ==>
              a.(id := None, totalTime := 0.0)
                == Analysed(NewAnalysis(Params(inp)).(rawStocks := stocks, filteredStocks := Shortlist(inp, stocks)),
                            Shortlist(inp, stocks), SummaryText(Shortlist(inp, stocks)), inp.finalN,
                            analyzer.client.respond, |old(analyzer.client.log)|, analyzer.decode))
    {
      a := Run(inp);
      a := a.(totalTime := elapsed);
      if a.success || a.rawStocks != [] {
        var saved := archive.Save(a);
        if saved.Ok? {
          a := a.(id := Some(saved.value));
        }
      }
    }
  }
}
