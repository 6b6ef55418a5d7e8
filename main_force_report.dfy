/**
 * The main-force report: the Markdown report of an analysis, built section by
 * section, and the two HTML conversion steps the exporter applies to it that
 * have a structure worth stating: bold spans and the line-by-line table
 * conversion.
 */
module MainForceReport {
  import opened Wrappers
  import opened Strings
  import opened Values
  import opened Lists
  import opened MainForceModel
  import opened MainForceAnalyzer

  /** The texts one after the other. */
  function Concat(xs: seq<string>): string
  {
    if |xs| == 0 then "" else Concat(xs[..|xs| - 1]) + xs[|xs| - 1]
  }

  /** The lines, each ended by a newline. */
  function Lines(xs: seq<string>): string
  {
    if |xs| == 0 then "" else Lines(xs[..|xs| - 1]) + xs[|xs| - 1] + "\n"
  }

  // ---- the parameter section ----

  /** The label and the value of each row of the parameter table. */
  function ParamRows(a: Analysis): seq<(string, string)>
  {
    var p := a.params;
    [("**起始日期**", Str(Get(p, "start_date", VStr("N/A")))),
     ("**市值范围**", Str(Get(p, "min_market_cap", VInt(50))) + "亿 - " + Str(Get(p, "max_market_cap", VInt(5000))) + "亿"),
     ("**最大涨跌幅**", Str(Get(p, "max_range_change", VInt(50))) + "%"),
     ("**初始数据量**", NatText(|a.rawStocks|) + "只"),
     ("**筛选后数量**", NatText(|a.filteredStocks|) + "只"),
     ("**最终推荐**", NatText(|a.recommendations|) + "只")]
  }

  function PairRow(p: (string, string)): string
  {
    Row([p.0, p.1])
  }

  /** The title, the clock reading, the parameter table and the team heading. */
  function Header(a: Analysis, now: string): string
  {
    "\n# 主力选股AI分析报告\n\n**生成时间**: " + now + "\n\n---\n\n## 📊 选股参数\n\n"
    + Lines(["| 项目 | 值 |", "|------|-----|"] + Map(ParamRows(a), PairRow))
    + "\n---\n\n## 🤖 AI分析师团队报告\n\n"
  }

  /** A count cell: the digits of the count, then the unit 只. */
  predicate CountCell(cell: string, n: nat)
  {
    |cell| > 0 && cell[|cell| - 1] == '只' && IsDigits(cell[..|cell| - 1]) && DigitsValue(cell[..|cell| - 1]) == n
  }

  /** The last three rows of the parameter table read back as the sizes of the raw, filtered and recommended lists. */
  lemma ParamCounts(a: Analysis)
    ensures var rows := ParamRows(a);
      && |rows| == 6
      && CountCell(rows[3].1, |a.rawStocks|)
      && CountCell(rows[4].1, |a.filteredStocks|)
      && CountCell(rows[5].1, |a.recommendations|)
  {
    var rows := ParamRows(a);
    NatTextRoundTrip(|a.rawStocks|);
    NatTextRoundTrip(|a.filteredStocks|);
    NatTextRoundTrip(|a.recommendations|);
    assert rows[3].1[..|rows[3].1| - 1] == NatText(|a.rawStocks|);
    assert rows[4].1[..|rows[4].1| - 1] == NatText(|a.filteredStocks|);
    assert rows[5].1[..|rows[5].1| - 1] == NatText(|a.recommendations|);
  }

  // ---- the analysts' sections ----

  const FundTitle := "### 💰 资金流向分析师"
  const IndustryTitle := "### 📊 行业板块及市场热点分析师"
  const FundamentalTitle := "### 📈 财务基本面分析师"
  const Titles := [FundTitle, IndustryTitle, FundamentalTitle]

  /** The analysts' texts, in the order of `Titles`. */
  function Texts(a: Analysis): seq<Option<string>>
  {
    [a.fundFlowAnalysis, a.industryAnalysis, a.fundamentalAnalysis]
  }

  /** `if text:` for an optional text. */
  predicate Present(t: Option<string>)
  {
    t.Some? && t.value != ""
  }

  function Section(title: string, text: string): string
  {
    "\n" + title + "\n\n" + text + "\n\n---\n\n"
  }

  function SectionIf(title: string, t: Option<string>): seq<string>
  {
    if Present(t) then [Section(title, t.value)] else []
  }

  /** The analysts' sections in their fixed order, each only when its text is non-empty. */
  function AnalystSections(a: Analysis): seq<string>
  {
    SectionIf(FundTitle, a.fundFlowAnalysis) + SectionIf(IndustryTitle, a.industryAnalysis)
    + SectionIf(FundamentalTitle, a.fundamentalAnalysis)
  }

  /** The emoji of a title tells sections apart: it stands at the same place in each. */
  lemma SectionMark(title: string, text: string)
    requires |title| > 4
    ensures Section(title, text)[5] == title[4]
  {
  }

  /** A section's text is read back from it. */
  lemma SectionText(title: string, x: string, y: string)
    requires Section(title, x) == Section(title, y)
    ensures x == y
  {
    var n := |title| + 3;
    assert |x| == |y|;
    assert x == Section(title, x)[n..n + |x|];
    assert y == Section(title, y)[n..n + |y|];
  }

  /** Every section of the report is an analyst's, for a text that is present. */
  lemma SectionSource(a: Analysis, s: string) returns (j: nat)
    requires s in AnalystSections(a)
    ensures j < 3 && Present(Texts(a)[j]) && s == Section(Titles[j], Texts(a)[j].value)
  {
    var r1, r2, r3 := SectionIf(FundTitle, a.fundFlowAnalysis), SectionIf(IndustryTitle, a.industryAnalysis),
      SectionIf(FundamentalTitle, a.fundamentalAnalysis);
    assert AnalystSections(a) == r1 + r2 + r3;
    if s in r1 {
      j := 0;
    } else if s in r2 {
      j := 1;
    } else {
      j := 2;
    }
  }

  /** An analyst's section is in the report iff the analyst's text is non-empty, and then it carries that text. */
  lemma AnalystSectionsSpec(a: Analysis)
    ensures forall k | 0 <= k < 3 && Present(Texts(a)[k]) :: Section(Titles[k], Texts(a)[k].value) in AnalystSections(a)
    ensures forall k, x | 0 <= k < 3 && Section(Titles[k], x) in AnalystSections(a) :: Present(Texts(a)[k]) && x == Texts(a)[k].value
    ensures |AnalystSections(a)| <= 3
  {
    var r := AnalystSections(a);
    assert Titles[0][4] == '💰' && Titles[1][4] == '📊' && Titles[2][4] == '📈';
    forall k, x | 0 <= k < 3 && Section(Titles[k], x) in r
      ensures Present(Texts(a)[k]) && x == Texts(a)[k].value
    {
      var j := SectionSource(a, Section(Titles[k], x));
      SectionMark(Titles[k], x);
      SectionMark(Titles[j], Texts(a)[j].value);
      assert k == j;
      SectionText(Titles[k], x, Texts(a)[k].value);
    }
  }

  // ---- the recommendations ----

  const RecommendHead := "\n## ⭐ 精选推荐股票\n\n"
  const NoRecs := "暂无推荐股票\n\n---\n\n"

  /** The heading of a recommendation: its rank, code and name. */
  function Heading(rec: Recommendation): string
  {
    "\n### 【第" + Str(rec.rank) + "名】" + Str(rec.symbol) + " - " + Str(rec.name) + "\n\n"
  }

  /** `order` lists the keys of every dictionary, each once, as its insertion order does. */
  ghost predicate KeyOrder(order: Dict -> seq<string>)
  {
    forall d: Dict ::
      (forall i, j | 0 <= i < j < |order(d)| :: order(d)[i] != order(d)[j]) && (forall k :: k in order(d) <==> k in d)
  }

  /**
   * `for r in v`: a list's items, a text's characters, a dict's keys in the
   * order `order` gives for it; `None` where Python raises `TypeError`.
   */
  function Items(v: Value, order: Dict -> seq<string>): Option<seq<string>>
  {
    match v
    case VList(items) => Some(Map(items, Str))
    case VStr(s) => Some(seq(|s|, i requires 0 <= i < |s| => [s[i]]))
    case VDict(entries) => Some(order(entries))
    case _ => None
  }

  function Bullet(item: string): string
  {
    "- " + item
  }

  /** The one-character texts of `s`, as iterating over a string gives them. */
  function Chars(s: string): (r: seq<Value>)
    ensures |r| == |s| && forall i | 0 <= i < |s| :: r[i] == VStr([s[i]])
  {
    seq(|s|, i requires 0 <= i < |s| => VStr([s[i]]))
  }

  /**
   * `h += suffix`: a text is concatenated, a list is extended by the
   * characters of the suffix (`list.__iadd__` takes any iterable); any other
   * kind raises `TypeError`.
   */
  function Extended(h: Value, suffix: string): (r: Option<Value>)
    ensures r.Some? <==> h.VStr? || h.VList?
    ensures h.VStr? ==> r == Some(VStr(h.s + suffix))
    ensures h.VList? ==>
      && r.Some? && r.value.VList?
      && |r.value.items| == |h.items| + |suffix|
      && r.value.items[..|h.items|] == h.items
      && forall i | 0 <= i < |suffix| :: r.value.items[|h.items| + i] == VStr([suffix[i]])
  {
    match h
    case VStr(t) => Some(VStr(t + suffix))
    case VList(items) => Some(VList(items + Chars(suffix)))
    case _ => None
  }

  /** The bulleted reasons that follow the highlights. */
  function ReasonsSuffix(items: seq<string>): string
  {
    "\n\n" + Join(Map(items, Bullet), "\n")
  }

  /**
   * The value of `reason_text`: the highlights when truthy (else ""), extended
   * by the bulleted reasons when those are truthy; `None` where Python raises
   * `TypeError` (reasons that are not iterable, or highlights that are
   * neither a text nor a list).
   */
  function ReasonValue(rec: Recommendation, order: Dict -> seq<string>): Option<Value>
  {
    var base := if Truthy(rec.highlights) then rec.highlights else VStr("");
    if !Truthy(rec.reasons) then Some(base)
    else
      var items := Items(rec.reasons, order);
      if items.None? then None
      else Extended(base, ReasonsSuffix(items.value))
  }

  /** The reason text as the f-string writes it. */
  function ReasonText(rec: Recommendation, order: Dict -> seq<string>): Option<string>
  {
    var v := ReasonValue(rec, order);
    if v.None? then None else Some(Str(v.value))
  }

  /**
   * The reason text fails exactly when the reasons are truthy and either not
   * iterable or added to truthy highlights that are neither a text nor a
   * list; truthy text highlights are followed by the bullets.
   */
  lemma ReasonTextFails(rec: Recommendation, order: Dict -> seq<string>)
    ensures ReasonText(rec, order).None? <==>
      Truthy(rec.reasons)
      && (Items(rec.reasons, order).None? || (Truthy(rec.highlights) && !rec.highlights.VStr? && !rec.highlights.VList?))
    ensures Truthy(rec.reasons) && Items(rec.reasons, order).Some? && rec.highlights.VStr? ==>
      ReasonText(rec, order) == Some(rec.highlights.s + ReasonsSuffix(Items(rec.reasons, order).value))
  {
  }

  /** List highlights with list reasons are extended, not refused: `["x"]` gains the characters of `"\n\n- r"`. */
  lemma ListHighlightsExtended(rec: Recommendation, order: Dict -> seq<string>)
    requires rec.highlights == VList([VStr("x")]) && rec.reasons == VList([VStr("r")])
    ensures ReasonValue(rec, order) == Some(VList([VStr("x")] + Chars("\n\n- r")))
    ensures ReasonText(rec, order).Some?
  {
    var items := Map([VStr("r")], Str);
    assert items == ["r"];
    assert Items(rec.reasons, order) == Some(["r"]);
    assert Bullet("r") == "- r";
    assert Map(["r"], Bullet) == ["- r"];
    assert ReasonsSuffix(["r"]) == "\n\n- r";
  }

  /** Dictionary reasons are bulleted once per key, in the dictionary's order. */
  lemma DictReasonsOncePerKey(entries: Dict, order: Dict -> seq<string>)
    requires KeyOrder(order)
    ensures var items := Items(VDict(entries), order);
      && items.Some?
      && (forall i, j | 0 <= i < j < |items.value| :: items.value[i] != items.value[j])
      && (forall k :: k in items.value <==> k in entries)
  {
  }

  /** The key-figure list, present when the stock data is not empty; missing figures show as N/A. */
  function Metrics(sd: Dict): string
  {
    if sd == map[] then ""
    else
      var na := VStr("N/A");
      "\n- **所属行业**: " + Str(Get(sd, "industry", na))
      + "\n- **市值**: " + Str(Get(sd, "market_cap", na))
      + "\n- **主力资金流向**: " + Str(Get(sd, "main_fund_inflow", na))
      + "\n- **区间涨跌幅**: " + Str(Get(sd, "range_change", na))
      + "%\n- **市盈率**: " + Str(Get(sd, "pe_ratio", na))
      + "\n- **市净率**: " + Str(Get(sd, "pb_ratio", na)) + "\n\n"
  }

  /** One line per score in `keys` that the scores hold. */
  function ScoreLines(scores: Dict, keys: seq<string>): string
  {
    if |keys| == 0 then ""
    else
      var k := keys[|keys| - 1];
      ScoreLines(scores, keys[..|keys| - 1]) + (if k in scores then "- " + k + ": " + Str(scores[k]) + "\n" else "")
  }

  /**
   * The score list, when the stock data has a truthy "scores" entry; an entry
   * that is not a dict has no `items` and raises `AttributeError`.
   */
  function Scores(sd: Dict, order: Dict -> seq<string>): Option<string>
  {
    if "scores" !in sd || !Truthy(sd["scores"]) then Some("")
    else if !sd["scores"].VDict? then None
    else Some("**能力评分**:\n" + ScoreLines(sd["scores"].entries, order(sd["scores"].entries)) + "\n")
  }

  /** The position and holding-period advice, each when truthy. */
  function Advice(rec: Recommendation): string
  {
    (if Truthy(rec.position) then "**建议仓位**: " + Str(rec.position) + "\n\n" else "")
    + (if Truthy(rec.investmentPeriod) then "**投资周期**: " + Str(rec.investmentPeriod) + "\n\n" else "")
  }

  /** A recommendation's block, `None` where building it raises. */
  function RecBlock(rec: Recommendation, order: Dict -> seq<string>): Option<string>
  {
    var reason := ReasonText(rec, order);
    var scores := Scores(rec.stockData, order);
    if reason.None? || scores.None? then None
    else Some(Heading(rec) + "**推荐理由**:\n" + reason.value + "\n\n**关键指标**:\n"
              + Metrics(rec.stockData) + scores.value + Advice(rec) + "---\n\n")
  }

  /** Every element mapped, in order; `None` as soon as one of them maps to `None`. */
  function AllSome<T, U>(xs: seq<T>, f: T -> Option<U>): Option<seq<U>>
  {
    if |xs| == 0 then Some([])
    else
      var init := AllSome(xs[..|xs| - 1], f);
      var last := f(xs[|xs| - 1]);
      if init.None? || last.None? then None else Some(init.value + [last.value])
  }

  /** `AllSome` succeeds iff every element maps to a value, and then it lists those values in order. */
  lemma {:induction false} AllSomeSpec<T, U>(xs: seq<T>, f: T -> Option<U>)
    ensures AllSome(xs, f).Some? <==> forall i | 0 <= i < |xs| :: f(xs[i]).Some?
    ensures AllSome(xs, f).Some? ==>
      |AllSome(xs, f).value| == |xs| && forall i | 0 <= i < |xs| :: AllSome(xs, f).value[i] == f(xs[i]).value
    decreases |xs|
  {
    if |xs| > 0 {
      var init := xs[..|xs| - 1];
      AllSomeSpec(init, f);
      assert forall i | 0 <= i < |init| :: init[i] == xs[i];
    }
  }

  /** The blocks of the recommendations in order, `None` when one of them raises. */
  function RecBlocks(recs: seq<Recommendation>, order: Dict -> seq<string>): Option<seq<string>>
  {
    AllSome(recs, BlockFor(order))
  }

  /** `RecBlock` with the dict order fixed. */
  function BlockFor(order: Dict -> seq<string>): Recommendation -> Option<string>
  {
    rec => RecBlock(rec, order)
  }

  /** A recommendation's block opens with its heading. */
  lemma BlockHeading(rec: Recommendation, order: Dict -> seq<string>)
    requires RecBlock(rec, order).Some?
    ensures StartsWith(RecBlock(rec, order).value, Heading(rec))
  {
    var h := Heading(rec);
    assert RecBlock(rec, order).value[..|h|] == h;
  }

  /**
   * The blocks exist iff every recommendation's block does; then there is one
   * per recommendation, in order, each opening with its recommendation's heading.
   */
  lemma RecBlocksSpec(recs: seq<Recommendation>, order: Dict -> seq<string>)
    ensures RecBlocks(recs, order).Some? <==> forall i | 0 <= i < |recs| :: RecBlock(recs[i], order).Some?
    ensures RecBlocks(recs, order).Some? ==>
      var bs := RecBlocks(recs, order).value;
      |bs| == |recs|
      && forall i | 0 <= i < |recs| :: bs[i] == RecBlock(recs[i], order).value && StartsWith(bs[i], Heading(recs[i]))
  {
    AllSomeSpec(recs, BlockFor(order));
    forall i | 0 <= i < |recs| && RecBlock(recs[i], order).Some?
      ensures StartsWith(RecBlock(recs[i], order).value, Heading(recs[i]))
    {
      BlockHeading(recs[i], order);
    }
  }

  /** The recommendations part: the placeholder when there are none. */
  function RecsText(recs: seq<Recommendation>, order: Dict -> seq<string>): Option<string>
  {
    if recs == [] then Some(NoRecs)
    else
      var blocks := RecBlocks(recs, order);
      if blocks.None? then None else Some(Concat(blocks.value))
  }

  // ---- the candidate table ----

  const CandidatesHead := "\n## 📋 候选股票完整列表（按主力资金净流入排序）\n\n"
  const CandidateColumns := "| 序号 | 股票代码 | 股票名称 | 行业 | 主力净流入(万) | 涨跌幅(%) | 市值(亿) | 市盈率 | 市净率 |"
  const CandidateRule := "|------|----------|----------|------|--------------|-----------|----------|--------|--------|"

  /** `f"{x:.2f}" if x is not None else "N/A"` */
  function OptFixed(x: Option<real>): string
  {
    if x.None? then "N/A" else Fixed2(x.value)
  }

  /** The row of the stock numbered `idx`. */
  function CandidateRow(idx: nat, s: Stock): string
  {
    Row([NatText(idx), s.symbol, s.name, s.industry, Fixed2(s.mainFundInflow), Fixed2(s.rangeChange),
         Fixed2(s.marketCap), OptFixed(s.peRatio), OptFixed(s.pbRatio)])
  }

  /** The rows of `xs`, numbered from 1. */
  function Numbered<T>(xs: seq<T>, row: (nat, T) -> string): seq<string>
  {
    seq(|xs|, i requires 0 <= i < |xs| => row(i + 1, xs[i]))
  }

  /** The rows of the listed stocks, numbered from 1. */
  function CandidateRows(ss: seq<Stock>): seq<string>
  {
    Numbered(ss, CandidateRow)
  }

  /** The stocks the candidate table lists: the 100 of largest inflow. */
  function Candidates(a: Analysis): seq<Stock>
  {
    ByInflow(a.rawStocks, 100)
  }

  /** The candidate section: only when there are raw stocks. */
  function CandidatesText(a: Analysis): string
  {
    if a.rawStocks == [] then ""
    else CandidatesHead + Lines([CandidateColumns, CandidateRule] + CandidateRows(Candidates(a))) + "\n"
  }

  /** The first cell of a row: the text between the opening "| " and the next " |". */
  ghost predicate NumberedFrom(row: string, n: nat)
  {
    exists d :: StartsWith(row, "| " + d + " |") && IsDigits(d) && DigitsValue(d) == n
  }

  /** A table row opens with its first cell between bars. */
  lemma RowOpens(first: string, rest: seq<string>)
    requires |rest| > 0
    ensures StartsWith(Row([first] + rest), "| " + first + " |")
  {
    var cells := [first] + rest;
    assert cells[0] == first && cells[1..] == rest;
    assert Join(cells, " | ") == first + " | " + Join(rest, " | ");
    var row := Row(cells);
    assert row == "| " + first + " |" + " " + Join(rest, " | ") + " |";
    assert row[..|"| " + first + " |"|] == "| " + first + " |";
  }

  /** A candidate row opens with its number. */
  lemma RowNumbered(idx: nat, s: Stock)
    ensures NumberedFrom(CandidateRow(idx, s), idx)
  {
    var d := NatText(idx);
    NatTextRoundTrip(idx);
    var rest := [s.symbol, s.name, s.industry, Fixed2(s.mainFundInflow), Fixed2(s.rangeChange),
                 Fixed2(s.marketCap), OptFixed(s.peRatio), OptFixed(s.pbRatio)];
    assert CandidateRow(idx, s) == Row([d] + rest);
    RowOpens(d, rest);
  }

  /**
   * The candidate table lists at most 100 stocks, all from the raw list and
   * none more often than it holds them, largest inflow first and those
   * without inflow last, numbered 1, 2, …; no raw stock left out has a larger
   * inflow than a listed one.
   */
  lemma CandidateTableSpec(a: Analysis)
    ensures var ss := Candidates(a); var rows := CandidateRows(ss);
      && |rows| == |ss| <= 100
      && (forall i | 0 <= i < |ss| :: ss[i] in multiset(a.rawStocks))
      && multiset(ss) <= multiset(a.rawStocks)
      && (forall i, j | 0 <= i < j < |ss| && ss[j].mainFundInflow != 0.0 ::
            ss[i].mainFundInflow != 0.0 && ss[i].mainFundInflow >= ss[j].mainFundInflow)
      && (forall s | s in a.rawStocks && s !in ss :: forall i | 0 <= i < |ss| ::
            s.mainFundInflow != 0.0 ==> ss[i].mainFundInflow != 0.0 && ss[i].mainFundInflow >= s.mainFundInflow)
      && (forall i | 0 <= i < |rows| :: NumberedFrom(rows[i], i + 1))
  {
    ByInflowSpec(a.rawStocks, 100);
    CandidateRowsNumbered(Candidates(a));
  }

  /** The candidate rows are numbered 1, 2, …, one per stock. */
  lemma CandidateRowsNumbered(ss: seq<Stock>)
    ensures var rows := CandidateRows(ss);
      |rows| == |ss| && forall i | 0 <= i < |rows| :: NumberedFrom(rows[i], i + 1)
  {
    forall i | 0 <= i < |ss|
      ensures NumberedFrom(CandidateRows(ss)[i], i + 1)
    {
      RowNumbered(i + 1, ss[i]);
    }
  }

  // ---- the whole report ----

  function Footer(now: string): string
  {
    "\n---\n\n## 📝 免责声明\n\n本报告由AI系统生成，仅供参考，不构成投资建议。投资有风险，入市需谨慎。请在做出投资决策前咨询专业的投资顾问。\n\n---\n\n*报告生成时间: "
    + now + "*  \n*主力选股AI分析系统 v2.0*\n"
  }

  /**
   * `generate_main_force_markdown_report`, with the clock reading `now`; `None`
   * where a recommendation's fields make it raise.
   */
  function ReportText(a: Analysis, now: string, order: Dict -> seq<string>): Option<string>
    requires KeyOrder(order)
  {
    var recs := RecsText(a.recommendations, order);
    if recs.None? then None
    else Some(Header(a, now) + Concat(AnalystSections(a)) + RecommendHead + recs.value + CandidatesText(a) + Footer(now))
  }

  /** The mapped texts appended one by one, stopping at the first `None`. */
  method AppendAll<T>(xs: seq<T>, f: T -> Option<string>) returns (r: Option<string>)
    ensures var all := AllSome(xs, f); r == if all.None? then None else Some(Concat(all.value))
  {
    var text := "";
    var i := 0;
    while i < |xs|
      invariant 0 <= i <= |xs|
      invariant AllSome(xs[..i], f).Some? && text == Concat(AllSome(xs[..i], f).value)
    {
      assert xs[..i + 1][..i] == xs[..i];
      var block := f(xs[i]);
      if block.None? {
        AllSomeSpec(xs, f);
        return None;
      }
      text := text + block.value;
      assert AllSome(xs[..i + 1], f).value == AllSome(xs[..i], f).value + [block.value];
      i := i + 1;
    }
    assert xs[..i] == xs;
    return Some(text);
  }

  /** The header lines, then a row per element, numbered from 1, written row by row. */
  method NumberedLines<T>(head: seq<string>, xs: seq<T>, row: (nat, T) -> string) returns (text: string)
    ensures text == Lines(head + Numbered(xs, row))
  {
    text := Lines(head);
    assert head + Numbered(xs, row)[..0] == head;
    for idx := 0 to |xs|
      invariant text == Lines(head + Numbered(xs, row)[..idx])
    {
      var line := row(idx + 1, xs[idx]);
      assert (head + Numbered(xs, row)[..idx + 1])[..|head| + idx] == head + Numbered(xs, row)[..idx];
      text := text + line + "\n";
    }
    assert Numbered(xs, row)[..|xs|] == Numbered(xs, row);
  }

  /** The analysts' sections, each appended when its text is present. */
  method WriteSections(a: Analysis) returns (text: string)
    ensures text == Concat(AnalystSections(a))
  {
    text := "";
    ghost var sections: seq<string> := [];
    if Present(a.fundFlowAnalysis) {
      var section := Section(FundTitle, a.fundFlowAnalysis.value);
      ConcatSnoc(sections, section);
      text := text + section;
      sections := sections + [section];
    }
    assert sections == SectionIf(FundTitle, a.fundFlowAnalysis);
    if Present(a.industryAnalysis) {
      var section := Section(IndustryTitle, a.industryAnalysis.value);
      ConcatSnoc(sections, section);
      text := text + section;
      sections := sections + [section];
    }
    assert sections == SectionIf(FundTitle, a.fundFlowAnalysis) + SectionIf(IndustryTitle, a.industryAnalysis);
    if Present(a.fundamentalAnalysis) {
      var section := Section(FundamentalTitle, a.fundamentalAnalysis.value);
      ConcatSnoc(sections, section);
      text := text + section;
      sections := sections + [section];
    }
    assert text == Concat(sections);
    assert sections == AnalystSections(a);
  }

  /** One more part adds its text at the end. */
  lemma ConcatSnoc(xs: seq<string>, x: string)
    ensures Concat(xs + [x]) == Concat(xs) + x
  {
    assert (xs + [x])[..|xs|] == xs;
  }

  /** The recommendation blocks, or the placeholder when there are none. */
  method WriteRecommendations(recs: seq<Recommendation>, order: Dict -> seq<string>) returns (r: Option<string>)
    ensures r == RecsText(recs, order)
  {
    if recs == [] {
      return Some(NoRecs);
    }
    r := AppendAll(recs, BlockFor(order));
  }

  /**
   * `generate_main_force_markdown_report`: the report text built section by
   * section, or `None` where a recommendation's fields make it raise.
   */
  method GenerateReport(a: Analysis, now: string, order: Dict -> seq<string>) returns (md: Option<string>)
    requires KeyOrder(order)
    ensures md == ReportText(a, now, order)
  {
    var header := Header(a, now);
    var sections := WriteSections(a);
    var recs := WriteRecommendations(a.recommendations, order);
    if recs.None? {
      return None;
    }
    var candidates := "";
    if a.rawStocks != [] {
      var table := NumberedLines([CandidateColumns, CandidateRule], Candidates(a), CandidateRow);
      candidates := CandidatesHead + table + "\n";
    }
    assert candidates == CandidatesText(a);
    var text := header;
    text := text + sections;
    text := text + RecommendHead;
    text := text + recs.value;
    text := text + candidates;
    text := text + Footer(now);
    return Some(text);
  }

  // ---- bold spans ----

  /**
   * Where the shortest `**` closing a span starts in `t`, the text after an
   * opening `**`: the span may not cross a line break (`.` stops at `\n`).
   */
  function CloseAt(t: string): (r: Option<nat>)
    ensures r.Some? ==> r.value + 2 <= |t| && t[r.value] == '*' && t[r.value + 1] == '*'
    ensures r.Some? ==> forall k | 0 <= k < r.value :: t[k] != '\n' && !(t[k] == '*' && t[k + 1] == '*')
    decreases |t|
  {
    if |t| < 2 || t[0] == '\n' then None
    else if t[0] == '*' && t[1] == '*' then Some(0)
    else
      var j := CloseAt(t[1..]);
      if j.None? then None else Some(j.value + 1)
  }

  /** `re.sub(r"\*\*(.*?)\*\*", r"<strong>\1</strong>", s)`: spans replaced left to right. */
  function Emphasize(s: string): string
    decreases |s|
  {
    if |s| == 0 then ""
    else if |s| >= 2 && s[0] == '*' && s[1] == '*' && CloseAt(s[2..]).Some? then
      var j := CloseAt(s[2..]).value;
      "<strong>" + s[2..2 + j] + "</strong>" + Emphasize(s[4 + j..])
    else [s[0]] + Emphasize(s[1..])
  }

  /** No `**` starts in `x`, even with a `*` following it, and `x` stays on one line. */
  predicate Plain(x: string)
  {
    && (forall k | 0 <= k < |x| :: x[k] != '\n')
    && (forall k | 0 <= k < |x| - 1 :: !(x[k] == '*' && x[k + 1] == '*'))
    && (|x| > 0 ==> x[|x| - 1] != '*')
  }

  /** After a plain text, the first closing `**` is the one right after it. */
  lemma {:induction false} CloseAfterPlain(x: string, tail: string)
    requires Plain(x)
    ensures CloseAt(x + "**" + tail) == Some(|x|)
    decreases |x|
  {
    var t := x + "**" + tail;
    if |x| > 0 {
      assert t[1..] == x[1..] + "**" + tail;
      assert t[0] == x[0] && t[1] == if |x| > 1 then x[1] else '*';
      CloseAfterPlain(x[1..], tail);
    }
  }

  /** A bold span is the shortest one: its text is the plain text up to the first closing `**`. */
  lemma EmphasizeSpan(x: string, rest: string)
    requires Plain(x)
    ensures Emphasize("**" + x + "**" + rest) == "<strong>" + x + "</strong>" + Emphasize(rest)
  {
    var s := "**" + x + "**" + rest;
    assert s[2..] == x + "**" + rest;
    CloseAfterPlain(x, rest);
    assert s[2..2 + |x|] == x;
    assert s[4 + |x|..] == rest;
  }

  /** A text without `**` has no bold span and is left as it is. */
  lemma {:induction false} EmphasizeNoStars(s: string)
    requires forall k | 0 <= k < |s| - 1 :: !(s[k] == '*' && s[k + 1] == '*')
    ensures Emphasize(s) == s
    decreases |s|
  {
    if |s| > 0 {
      EmphasizeNoStars(s[1..]);
      assert [s[0]] + s[1..] == s;
    }
  }

  // ---- tables ----

  /** What the table conversion emits, one line each. */
  datatype Piece = OpenTable | CloseTable | OpenRow | CloseRow | HeadCell(text: string) | DataCell(text: string) | Text(line: string)

  function Render(p: Piece): string
  {
    match p
    case OpenTable => "<table>"
    case CloseTable => "</table>"
    case OpenRow => "<tr>"
    case CloseRow => "</tr>"
    case HeadCell(t) => "<th>" + t + "</th>"
    case DataCell(t) => "<td>" + t + "</td>"
    case Text(l) => l
  }

  /** `parts[1:-1]` */
  function Inner(parts: seq<string>): seq<string>
  {
    if |parts| < 2 then [] else parts[1..|parts| - 1]
  }

  /** The cells of a table line: the stripped pieces between the first and the last bar. */
  function Cells(line: string): seq<string>
  {
    Map(Inner(Split(line, '|')), Strip)
  }

  function CellPieces(cells: seq<string>, header: bool): seq<Piece>
  {
    if |cells| == 0 then []
    else
      var c := cells[|cells| - 1];
      CellPieces(cells[..|cells| - 1], header) + [if header then HeadCell(c) else DataCell(c)]
  }

  function RowPieces(cells: seq<string>, header: bool): seq<Piece>
  {
    [OpenRow] + CellPieces(cells, header) + [CloseRow]
  }

  /** `line.strip().startswith("|")` */
  predicate OpensTable(line: string)
  {
    StartsWith(Strip(line), "|")
  }

  /** How the table pass treats a line, given whether a table is open. */
  datatype LineKind = Opens | Separator | DataLine | Closes | Other

  function Kind(inTable: bool, line: string): LineKind
  {
    if '|' in line && !inTable && OpensTable(line) then Opens
    else if '|' in line && inTable then (if Contains(line, "---") then Separator else DataLine)
    else if inTable then Closes
    else Other
  }

  /** What one line adds, and whether a table is open after it. */
  function Step(inTable: bool, line: string): (seq<Piece>, bool)
  {
    match Kind(inTable, line)
    case Opens => ([OpenTable] + RowPieces(Cells(line), true), true)
    case Separator => ([], true)
    case DataLine => (RowPieces(Cells(line), false), true)
    case Closes => ([CloseTable, Text(line)], false)
    case Other => ([Text(line)], false)
  }

  /** The pieces of the lines, and whether a table is still open at the end. */
  function Convert(lines: seq<string>): (seq<Piece>, bool)
  {
    if |lines| == 0 then ([], false)
    else
      var before := Convert(lines[..|lines| - 1]);
      var step := Step(before.1, lines[|lines| - 1]);
      (before.0 + step.0, step.1)
  }

  /** The converted lines, with a table still open at the end closed. */
  function TablePieces(lines: seq<string>): seq<Piece>
  {
    var c := Convert(lines);
    c.0 + (if c.1 then [CloseTable] else [])
  }

  /** The table conversion of the body: split into lines, converted, joined back. */
  function TableHtml(body: string): string
  {
    Join(Map(TablePieces(Split(body, '\n')), Render), "\n")
  }

  /** Where a reader of the pieces stands: outside, in a table's header row, between rows, in a data row. */
  datatype Where = Outside | Opened | HeadRow | Body | DataRow

  /**
   * The shape of well-formed output: text only outside tables; a table is
   * `<table>`, one header row of `<th>` cells, data rows of `<td>` cells and
   * `</table>`.
   */
  function Next(w: Where, p: Piece): Option<Where>
  {
    match (w, p)
    case (Outside, OpenTable) => Some(Opened)
    case (Outside, Text(_)) => Some(Outside)
    case (Opened, OpenRow) => Some(HeadRow)
    case (HeadRow, HeadCell(_)) => Some(HeadRow)
    case (HeadRow, CloseRow) => Some(Body)
    case (Body, OpenRow) => Some(DataRow)
    case (Body, CloseTable) => Some(Outside)
    case (DataRow, DataCell(_)) => Some(DataRow)
    case (DataRow, CloseRow) => Some(Body)
    case _ => None
  }

  /** Where the reader stands after the pieces, `None` once a piece is out of place. */
  function Track(w: Where, ps: seq<Piece>): Option<Where>
  {
    if |ps| == 0 then Some(w)
    else
      var before := Track(w, ps[..|ps| - 1]);
      if before.None? then None else Next(before.value, ps[|ps| - 1])
  }

  /** Every table opened is closed, and every tag stands where the shape allows it. */
  predicate Balanced(ps: seq<Piece>)
  {
    Track(Outside, ps) == Some(Outside)
  }

  lemma {:induction false} TrackAppend(w: Where, a: seq<Piece>, b: seq<Piece>)
    ensures Track(w, a + b) == if Track(w, a).None? then None else Track(Track(w, a).value, b)
    decreases |b|
  {
    if |b| == 0 {
      assert a + b == a;
    } else {
      assert (a + b)[..|a + b| - 1] == a + b[..|b| - 1];
      assert (a + b)[|a + b| - 1] == b[|b| - 1];
      TrackAppend(w, a, b[..|b| - 1]);
    }
  }

  lemma {:induction false} CellsTrack(cells: seq<string>, header: bool)
    ensures Track(if header then HeadRow else DataRow, CellPieces(cells, header)) == Some(if header then HeadRow else DataRow)
    decreases |cells|
  {
    if |cells| > 0 {
      var ps := CellPieces(cells, header);
      assert ps[..|ps| - 1] == CellPieces(cells[..|cells| - 1], header);
      CellsTrack(cells[..|cells| - 1], header);
    }
  }

  /** A header row follows an opened table, a data row follows a row; both leave the reader between rows. */
  lemma RowTrack(cells: seq<string>, header: bool)
    ensures Track(if header then Opened else Body, RowPieces(cells, header)) == Some(Body)
  {
    var w := if header then Opened else Body;
    var inRow := if header then HeadRow else DataRow;
    CellsTrack(cells, header);
    assert Track(w, [OpenRow]) == Some(inRow);
    TrackAppend(w, [OpenRow], CellPieces(cells, header));
    TrackAppend(w, [OpenRow] + CellPieces(cells, header), [CloseRow]);
  }

  function Between(inTable: bool): Where
  {
    if inTable then Body else Outside
  }

  lemma StepTrack(inTable: bool, line: string)
    ensures Track(Between(inTable), Step(inTable, line).0) == Some(Between(Step(inTable, line).1))
  {
    if '|' in line && !inTable && OpensTable(line) {
      RowTrack(Cells(line), true);
      assert Track(Outside, [OpenTable]) == Some(Opened);
      TrackAppend(Outside, [OpenTable], RowPieces(Cells(line), true));
    } else if '|' in line && inTable {
      if !Contains(line, "---") {
        RowTrack(Cells(line), false);
      }
    } else if inTable {
      assert [CloseTable, Text(line)][..1] == [CloseTable];
      assert Track(Body, [CloseTable]) == Some(Outside);
    }
  }

  lemma {:induction false} ConvertTrack(lines: seq<string>)
    ensures Track(Outside, Convert(lines).0) == Some(Between(Convert(lines).1))
    decreases |lines|
  {
    if |lines| > 0 {
      var init := lines[..|lines| - 1];
      ConvertTrack(init);
      var before := Convert(init);
      StepTrack(before.1, lines[|lines| - 1]);
      TrackAppend(Outside, before.0, Step(before.1, lines[|lines| - 1]).0);
    }
  }

  /** Closing a table left open brings the reader back outside. */
  lemma CloseOpen(ps: seq<Piece>, open: bool)
    requires Track(Outside, ps) == Some(Between(open))
    ensures Track(Outside, ps + (if open then [CloseTable] else [])) == Some(Outside)
  {
    if open {
      TrackAppend(Outside, ps, [CloseTable]);
      assert Track(Body, [CloseTable]) == Some(Outside);
    } else {
      assert ps + [] == ps;
    }
  }

  /** Whatever the lines, the converted output is balanced: every table closes, rows and cells sit inside one. */
  lemma TablesBalanced(lines: seq<string>)
    ensures Balanced(TablePieces(lines))
  {
    ConvertTrack(lines);
    CloseOpen(Convert(lines).0, Convert(lines).1);
  }

  /** A row's pieces appended: `<tr>`, one cell per text, `</tr>`. */
  method AppendRow(ps: seq<Piece>, cells: seq<string>, header: bool) returns (r: seq<Piece>)
    ensures r == ps + RowPieces(cells, header)
  {
    r := ps + [OpenRow];
    for j := 0 to |cells|
      invariant r == ps + [OpenRow] + CellPieces(cells[..j], header)
    {
      assert cells[..j + 1][..j] == cells[..j];
      r := r + [if header then HeadCell(cells[j]) else DataCell(cells[j])];
    }
    assert cells[..|cells|] == cells;
    r := r + [CloseRow];
  }

  /** One line of the table pass: what it appends, and the flag after it. */
  method ConvertLine(processed: seq<Piece>, inTable: bool, line: string) returns (r: seq<Piece>, nowInTable: bool)
    ensures r == processed + Step(inTable, line).0 && nowInTable == Step(inTable, line).1
  {
    match Kind(inTable, line)
    case Opens =>
      r := processed + [OpenTable];
      nowInTable := true;
      r := AppendRow(r, Cells(line), true);
      assert r == processed + ([OpenTable] + RowPieces(Cells(line), true));
    case Separator =>
      r, nowInTable := processed, true;
      assert r == processed + [];
    case DataLine =>
      r := AppendRow(processed, Cells(line), false);
      nowInTable := true;
    case Closes =>
      r := processed + [CloseTable];
      nowInTable := false;
      r := r + [Text(line)];
      assert r == processed + [CloseTable, Text(line)];
    case Other =>
      r := processed + [Text(line)];
      nowInTable := false;
  }

  /**
   * The table pass of `generate_html_content`: the lines walked once with an
   * "in a table" flag, a table left open at the end closed, the pieces
   * joined back with newlines.
   */
  method ConvertTables(body: string) returns (html: string)
    ensures html == TableHtml(body)
  {
    var lines := Split(body, '\n');
    var processed: seq<Piece> := [];
    var inTable := false;
    for i := 0 to |lines|
      invariant (processed, inTable) == Convert(lines[..i])
    {
      assert lines[..i + 1][..i] == lines[..i];
      processed, inTable := ConvertLine(processed, inTable, lines[i]);
    }
    assert lines[..|lines|] == lines;
    if inTable {
      processed := processed + [CloseTable];
    } else {
      assert processed + [] == processed;
    }
    html := Join(Map(processed, Render), "\n");
  }

  /** A split piece holds only characters of the text split. */
  lemma {:induction false} SplitChars(s: string, c: char, x: char)
    requires x !in s
    ensures forall k | 0 <= k < |Split(s, c)| :: x !in Split(s, c)[k]
    decreases |s|
  {
    if |s| > 0 {
      assert x !in s[1..] by {
        assert forall i | 0 <= i < |s| - 1 :: s[1..][i] == s[i + 1];
      }
      SplitChars(s[1..], c, x);
    }
  }

  /** Lines without bars come out as they are. */
  lemma {:induction false} ConvertNoBars(lines: seq<string>)
    requires forall k | 0 <= k < |lines| :: '|' !in lines[k]
    ensures Convert(lines) == (Map(lines, l => Text(l)), false)
    decreases |lines|
  {
    if |lines| > 0 {
      var init := lines[..|lines| - 1];
      assert forall k | 0 <= k < |init| :: init[k] == lines[k];
      ConvertNoBars(init);
      assert Map(lines, l => Text(l)) == Map(init, l => Text(l)) + [Text(lines[|lines| - 1])];
    }
  }

  /** A body without a bar passes through the table conversion unchanged. */
  lemma NoBarsUnchanged(body: string)
    requires '|' !in body
    ensures TableHtml(body) == body
  {
    var lines := Split(body, '\n');
    SplitChars(body, '\n', '|');
    ConvertNoBars(lines);
    assert TablePieces(lines) == Map(lines, l => Text(l));
    assert Map(TablePieces(lines), Render) == lines;
    JoinSplit(body, '\n');
  }

  /** Splitting at a character that occurs gives at least two pieces. */
  lemma {:induction false} SplitAtLeastTwo(s: string, c: char)
    requires c in s
    ensures |Split(s, c)| >= 2
    decreases |s|
  {
    if s[0] != c {
      assert c in s[1..] by {
        var i :| 0 <= i < |s| && s[i] == c;
        assert s[1..][i - 1] == c;
      }
      SplitAtLeastTwo(s[1..], c);
    }
  }

  /** Joining peels off the last part. */
  lemma {:induction false} JoinLast(ps: seq<string>, sep: string)
    requires |ps| >= 2
    ensures Join(ps, sep) == Join(ps[..|ps| - 1], sep) + sep + ps[|ps| - 1]
    decreases |ps|
  {
    if |ps| > 2 {
      JoinLast(ps[1..], sep);
      assert ps[1..][..|ps| - 2] == ps[1..|ps| - 1];
      assert ps[..|ps| - 1][1..] == ps[1..|ps| - 1];
    }
  }

  /** A line has a bar iff it splits into at least two parts at bars. */
  lemma BarSplits(line: string)
    ensures '|' in line <==> |Split(line, '|')| >= 2
  {
    if '|' in line {
      SplitAtLeastTwo(line, '|');
    } else {
      SplitChars(line, '|', '|');
      JoinSplit(line, '|');
    }
  }

  /** Joining at least three parts: the first, the inner ones joined, the last. */
  lemma JoinInner(parts: seq<string>, sep: string)
    requires |parts| >= 3
    ensures Join(parts, sep) == parts[0] + sep + Join(Inner(parts), sep) + sep + parts[|parts| - 1]
  {
    var n := |parts|;
    var tail := parts[1..];
    InnerSlices(parts);
    JoinLast(tail, sep);
    assert Join(parts, sep) == parts[0] + sep + Join(tail, sep);
    JoinGlue(Join(parts, sep), parts[0], sep, Join(tail, sep), Join(Inner(parts), sep), parts[n - 1]);
  }

  /** The parts after the first: the inner ones, then the last. */
  lemma InnerSlices(parts: seq<string>)
    requires |parts| >= 3
    ensures parts[1..][..|parts| - 2] == Inner(parts) && parts[1..][|parts| - 2] == parts[|parts| - 1]
  {
  }

  /** `first + sep + (mid + sep + last)`, regrouped with each part named. */
  lemma JoinGlue(whole: string, first: string, sep: string, rest: string, mid: string, last: string)
    requires whole == first + sep + rest && rest == mid + sep + last
    ensures whole == first + sep + mid + sep + last
  {
  }


  /**
   * With at least two bars, a line is its text before the first bar, the
   * cell texts between bars, and its text after the last bar; `Cells` strips
   * those inner texts.
   */
  lemma CellsBetweenBars(line: string)
    requires |Split(line, '|')| >= 3
    ensures var parts := Split(line, '|');
      && line == parts[0] + "|" + Join(Inner(parts), "|") + "|" + parts[|parts| - 1]
      && '|' !in parts[0] && '|' !in parts[|parts| - 1]
  {
    JoinSplit(line, '|');
    JoinInner(Split(line, '|'), "|");
  }
}
