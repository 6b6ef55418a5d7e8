/**
 * `MainForceStockSelector`, the older duplicate of the wencai provider: it
 * keeps the last fetched table in `raw_data` and the last filter result in
 * `filtered_stocks`, filters with its own capitalisation rule, ranks by the
 * coerced fund column and formats rows as dictionaries for the analysts.
 */
module MainForceSelector {
  import opened Wrappers
  import opened Strings
  import opened Values
  import opened Frames
  import opened Sorting
  import opened Lists
  import opened MainForceTables
  import opened WencaiProvider

  /** What `str(e)` says when `timedelta(days=None)` raises. */
  const NoDays := "unsupported type for timedelta days component: NoneType"
  const FetchFailed := "获取主力选股数据失败: "
  const NA := VStr("N/A")

  /** `not start_date` */
  predicate Blank(startDate: Option<string>) { startDate.None? || startDate.value == "" }

  // ---- filter_stocks ----

  /** Step 1: the price change coerced and compared with the bound; a `None` bound compares false for every row. */
  function RangeStage(f: Frame, maxRange: Option<real>): (r: Frame)
    ensures r.columns == f.columns && |r.rows| <= |f.rows|
    ensures FindColumn(f.columns, PctPatterns).None? ==> r == f
    ensures FindColumn(f.columns, PctPatterns).Some? ==>
      forall row | row in r.rows :: maxRange.Some? && Below(row, FindColumn(f.columns, PctPatterns).value, maxRange.value)
    ensures FindColumn(f.columns, PctPatterns).Some? && maxRange.None? ==> r.rows == []
  {
    match FindColumn(f.columns, PctPatterns)
    case None => f
    case Some(col) =>
      var p := (row: Dict) => maxRange.Some? && Below(row, col, maxRange.value);
      FilterSubset(CoerceColumn(f.rows, col), p);
      FilterNothing(CoerceColumn(f.rows, col), p);
      Frame(f.columns, Filter(CoerceColumn(f.rows, col), p))
  }

  /** The numbers of a coerced column, NaN left out, in row order. */
  function NumbersIn(rows: seq<Dict>, col: string): (xs: seq<real>)
    ensures |xs| <= |rows|
  {
    if |rows| == 0 then []
    else
      var v := Get(rows[0], col, VNone);
      (if v.VFloat? then [v.r] else []) + NumbersIn(rows[1..], col)
  }

  /** `series.max() > 100000`: the maximum skips NaN, and a column without numbers has a NaN maximum. */
  predicate InYuanSkipNaN(rows: seq<Dict>, col: string)
  {
    var xs := NumbersIn(rows, col);
    |xs| > 0 && MaxOf(xs) > 100000.0
  }

  /** A number divided by 1e8; NaN stays NaN. */
  function ToYi(v: Value): (r: Value)
    ensures v.VFloat? <==> r.VFloat?
    ensures v.VFloat? ==> r.r * 100000000.0 == v.r
  {
    if v.VFloat? then VFloat(v.r / 100000000.0) else v
  }

  function RescaleColumn(rows: seq<Dict>, col: string): (r: seq<Dict>)
    ensures |r| == |rows| && forall i | 0 <= i < |rows| :: r[i] == rows[i][col := ToYi(Get(rows[i], col, VNone))]
  {
    seq(|rows|, i requires 0 <= i < |rows| => rows[i][col := ToYi(Get(rows[i], col, VNone))])
  }

  /** The capitalisation column after coercion, in 亿 when its maximum says yuan. */
  function CapInYi(rows: seq<Dict>, col: string): (r: seq<Dict>)
    ensures |r| == |rows|
    ensures forall i | 0 <= i < |rows| :: col in r[i] && r[i] == rows[i][col := r[i][col]]
  {
    var g := CoerceColumn(rows, col);
    if InYuanSkipNaN(g, col) then RescaleColumn(g, col) else g
  }

  /**
   * Step 2: the first column mentioning 市值, in 亿, and the `[min, max]`
   * bounds always applied (a `None` bound compares false, so no row stays).
   */
  function CapStage(f: Frame, minCap: Option<real>, maxCap: Option<real>): (r: Frame)
    ensures r.columns == f.columns && |r.rows| <= |f.rows|
    ensures FirstMatch(f.columns, CapPatterns).None? ==> r == f
    ensures FirstMatch(f.columns, CapPatterns).Some? ==>
      forall row | row in r.rows :: minCap.Some? && maxCap.Some? && Within(row, FirstMatch(f.columns, CapPatterns).value, minCap.value, maxCap.value)
    ensures FirstMatch(f.columns, CapPatterns).Some? && (minCap.None? || maxCap.None?) ==> r.rows == []
  {
    match FirstMatch(f.columns, CapPatterns)
    case None => f
    case Some(col) =>
      var p := (row: Dict) => minCap.Some? && maxCap.Some? && Within(row, col, minCap.value, maxCap.value);
      FilterSubset(CapInYi(f.rows, col), p);
      FilterNothing(CapInYi(f.rows, col), p);
      Frame(f.columns, Filter(CapInYi(f.rows, col), p))
  }

  /** `filter_stocks` on a table: an empty one is returned as it is, otherwise the three steps in order. */
  function Filtered(f: Frame, maxRange: Option<real>, minCap: Option<real>, maxCap: Option<real>): Frame
  {
    if f.IsEmpty() then f else DropST(CapStage(RangeStage(f, maxRange), minCap, maxCap))
  }

  /** Step 1 keeps exactly the coerced rows whose price change is a number below a given bound. */
  lemma RangeStageKeeps(f: Frame, maxRange: Option<real>)
    ensures FindColumn(f.columns, PctPatterns).Some? ==>
      var col := FindColumn(f.columns, PctPatterns).value;
      forall row :: row in RangeStage(f, maxRange).rows <==>
        row in CoerceColumn(f.rows, col) && maxRange.Some? && Below(row, col, maxRange.value)
  {
    if FindColumn(f.columns, PctPatterns).Some? {
      var col := FindColumn(f.columns, PctPatterns).value;
      FilterMembers(CoerceColumn(f.rows, col), (row: Dict) => maxRange.Some? && Below(row, col, maxRange.value));
    }
  }

  /** The rows of `a` with the capitalisation column in 亿, as step 2 sees them. */
  function CapStageRows(a: Frame): seq<Dict>
  {
    match FirstMatch(a.columns, CapPatterns)
    case None => a.rows
    case Some(col) => CapInYi(a.rows, col)
  }

  /** The bounds of step 2: both given and a capitalisation in `[min, max]`, whenever the column exists. */
  predicate CapStageOk(a: Frame, minCap: Option<real>, maxCap: Option<real>, row: Dict)
  {
    FirstMatch(a.columns, CapPatterns).Some? ==>
      minCap.Some? && maxCap.Some? && Within(row, FirstMatch(a.columns, CapPatterns).value, minCap.value, maxCap.value)
  }

  /** Step 2 keeps exactly the rows in 亿 within the bounds. */
  lemma CapStageKeeps(a: Frame, minCap: Option<real>, maxCap: Option<real>)
    ensures forall row :: row in CapStage(a, minCap, maxCap).rows <==> row in CapStageRows(a) && CapStageOk(a, minCap, maxCap, row)
  {
    match FirstMatch(a.columns, CapPatterns)
    case None =>
    case Some(col) =>
      FilterMembers(CapInYi(a.rows, col), (row: Dict) => minCap.Some? && maxCap.Some? && Within(row, col, minCap.value, maxCap.value));
  }

  /**
   * `filter_stocks` keeps every row that qualifies: each input row whose
   * price change is a number below a given bound passes step 1 with that cell
   * coerced, and each row passing step 1 that, with its capitalisation in 亿,
   * lies within the given bounds and carries no "ST" is in the result.
   */
  lemma FilteredComplete(f: Frame, maxRange: Option<real>, minCap: Option<real>, maxCap: Option<real>)
    requires !f.IsEmpty()
    ensures var a, r := RangeStage(f, maxRange), Filtered(f, maxRange, minCap, maxCap);
      var pct := FindColumn(f.columns, PctPatterns);
      && (pct.Some? && maxRange.Some? ==>
            forall i | 0 <= i < |f.rows| && Below(CoerceColumn(f.rows, pct.value)[i], pct.value, maxRange.value) ::
              CoerceColumn(f.rows, pct.value)[i] in a.rows)
      && (pct.None? ==> a == f)
      && (forall row | row in CapStageRows(a) && CapStageOk(a, minCap, maxCap, row) && NameOk(f.columns, row) :: row in r.rows)
  {
    var a := RangeStage(f, maxRange);
    var b := CapStage(a, minCap, maxCap);
    RangeStageKeeps(f, maxRange);
    CapStageKeeps(a, minCap, maxCap);
    DropSTKeeps(b);
  }

  /**
   * What `filter_stocks` guarantees: every row it keeps has a number below
   * the bound in the price-change column (none survive a `None` bound), a
   * capitalisation in 亿 within `[min, max]` whenever the column exists, and
   * no "ST" in the name; the columns stay. Conversely every row that
   * qualifies is kept (`FilteredComplete`).
   */
  lemma FilteredSpec(f: Frame, maxRange: Option<real>, minCap: Option<real>, maxCap: Option<real>)
    requires !f.IsEmpty()
    ensures var r := Filtered(f, maxRange, minCap, maxCap);
      var pct, cap := FindColumn(f.columns, PctPatterns), FirstMatch(f.columns, CapPatterns);
      && r.columns == f.columns && |r.rows| <= |f.rows|
      && (pct.Some? && maxRange.None? ==> r.rows == [])
      && (pct.Some? && (cap.Some? ==> pct != cap) ==> forall row | row in r.rows :: Below(row, pct.value, maxRange.value))
      && (cap.Some? && (minCap.None? || maxCap.None?) ==> r.rows == [])
      && (cap.Some? ==> forall row | row in r.rows :: Within(row, cap.value, minCap.value, maxCap.value))
      && ("股票简称" in f.columns ==> forall row | row in r.rows :: !NamedST(row))
    ensures var a, r := RangeStage(f, maxRange), Filtered(f, maxRange, minCap, maxCap);
      var pct := FindColumn(f.columns, PctPatterns);
      && (pct.Some? && maxRange.Some? ==>
            forall i | 0 <= i < |f.rows| && Below(CoerceColumn(f.rows, pct.value)[i], pct.value, maxRange.value) ::
              CoerceColumn(f.rows, pct.value)[i] in a.rows)
      && (forall row | row in CapStageRows(a) && CapStageOk(a, minCap, maxCap, row) && NameOk(f.columns, row) :: row in r.rows)
  {
    FilteredComplete(f, maxRange, minCap, maxCap);
    var a := RangeStage(f, maxRange);
    var b := CapStage(a, minCap, maxCap);
    DropSTSubset(b);
    var pct, cap := FindColumn(f.columns, PctPatterns), FirstMatch(f.columns, CapPatterns);
    if pct.Some? && cap.Some? && pct != cap && maxRange.Some? {
      CapStageKeepsBelow(a, minCap, maxCap, pct.value, maxRange.value);
    }
  }

  /** The capitalisation stage rewrites only its own column, so a price-change bound its input met still holds. */
  lemma CapStageKeepsBelow(a: Frame, minCap: Option<real>, maxCap: Option<real>, pct: string, bound: real)
    requires FirstMatch(a.columns, CapPatterns).Some? && FirstMatch(a.columns, CapPatterns).value != pct
    requires forall row | row in a.rows :: Below(row, pct, bound)
    ensures forall row | row in CapStage(a, minCap, maxCap).rows :: Below(row, pct, bound)
  {
    var cap := FirstMatch(a.columns, CapPatterns).value;
    var b := CapStage(a, minCap, maxCap);
    forall row | row in b.rows ensures Below(row, pct, bound) {
      var k :| 0 <= k < |b.rows| && b.rows[k] == row;
      CapRowFrom(a, minCap, maxCap, k);
      var j :| 0 <= j < |a.rows| && row == a.rows[j][cap := row[cap]];
      assert a.rows[j] in a.rows;
      assert Get(row, pct, VNone) == Get(a.rows[j], pct, VNone);
    }
  }

  /** Each row the capitalisation step keeps is a row of its input with the capitalisation cell rewritten. */
  lemma CapRowFrom(a: Frame, minCap: Option<real>, maxCap: Option<real>, k: nat)
    requires FirstMatch(a.columns, CapPatterns).Some? && k < |CapStage(a, minCap, maxCap).rows|
    ensures var col, row := FirstMatch(a.columns, CapPatterns).value, CapStage(a, minCap, maxCap).rows[k];
      exists j | 0 <= j < |a.rows| :: col in row && row == a.rows[j][col := row[col]]
  {
    var col := FirstMatch(a.columns, CapPatterns).value;
    var g := CapInYi(a.rows, col);
    var p := (row: Dict) => minCap.Some? && maxCap.Some? && Within(row, col, minCap.value, maxCap.value);
    FilterSubset(g, p);
    var row := CapStage(a, minCap, maxCap).rows[k];
    assert row in Filter(g, p);
    var j :| 0 <= j < |g| && g[j] == row;
  }

  /**
   * `filter_stocks` keeps rows in their order: outside the price-change and
   * capitalisation cells it rewrites, the result is the input with rows left
   * out.
   */
  lemma FilteredOrder(f: Frame, maxRange: Option<real>, minCap: Option<real>, maxCap: Option<real>)
    ensures var cols := Names(FindColumn(f.columns, PctPatterns)) + Names(FirstMatch(f.columns, CapPatterns));
      SubsequenceOf(Map(Filtered(f, maxRange, minCap, maxCap).rows, Outside(cols)), Map(f.rows, Outside(cols)))
  {
    var cols := Names(FindColumn(f.columns, PctPatterns)) + Names(FirstMatch(f.columns, CapPatterns));
    var v := Outside(cols);
    if f.IsEmpty() {
      SubsequenceRefl(Map(f.rows, v));
      return;
    }
    var a := RangeStage(f, maxRange);
    var b := CapStage(a, minCap, maxCap);
    RangeStageOrder(f, maxRange, cols);
    CapStageOrder(a, minCap, maxCap, cols);
    DropSTOrder(b, cols);
    SubsequenceTrans(Map(b.rows, v), Map(a.rows, v), Map(f.rows, v));
    SubsequenceTrans(Map(DropST(b).rows, v), Map(b.rows, v), Map(f.rows, v));
  }

  /** The price-change stage keeps rows in order outside the columns `cols`, which hold the column it rewrites. */
  lemma RangeStageOrder(f: Frame, maxRange: Option<real>, cols: set<string>)
    requires FindColumn(f.columns, PctPatterns).Some? ==> FindColumn(f.columns, PctPatterns).value in cols
    ensures SubsequenceOf(Map(RangeStage(f, maxRange).rows, Outside(cols)), Map(f.rows, Outside(cols)))
  {
    match FindColumn(f.columns, PctPatterns) {
      case None => SubsequenceRefl(Map(f.rows, Outside(cols)));
      case Some(col) =>
        CoercedOutside(f.rows, col, cols);
        StageOrder(f.rows, CoerceColumn(f.rows, col), (row: Dict) => maxRange.Some? && Below(row, col, maxRange.value), cols);
    }
  }

  /** The capitalisation stage keeps rows in order outside the columns `cols`, which hold the column it rewrites. */
  lemma CapStageOrder(a: Frame, minCap: Option<real>, maxCap: Option<real>, cols: set<string>)
    requires FirstMatch(a.columns, CapPatterns).Some? ==> FirstMatch(a.columns, CapPatterns).value in cols
    ensures SubsequenceOf(Map(CapStage(a, minCap, maxCap).rows, Outside(cols)), Map(a.rows, Outside(cols)))
  {
    match FirstMatch(a.columns, CapPatterns) {
      case None => SubsequenceRefl(Map(a.rows, Outside(cols)));
      case Some(col) =>
        SameOutside(a.rows, CapInYi(a.rows, col), col, cols);
        StageOrder(a.rows, CapInYi(a.rows, col), (row: Dict) => minCap.Some? && maxCap.Some? && Within(row, col, minCap.value, maxCap.value), cols);
    }
  }

  // ---- get_top_stocks ----

  /** `get_top_stocks`: the fund column coerced and `nlargest` (NaN last), else `head`. */
  function TopRows(f: Frame, n: int): (r: Frame)
    ensures r.columns == f.columns
    ensures f.IsEmpty() ==> r == f
    ensures !f.IsEmpty() ==> (n >= 0 ==> |r.rows| <= n) && |r.rows| <= |f.rows|
    ensures !f.IsEmpty() && FindColumn(f.columns, FundPatterns).None? ==> r.rows == f.rows[..|r.rows|]
  {
    if f.IsEmpty() then f
    else match FindColumn(f.columns, FundPatterns)
      case Some(col) =>
        Frame(f.columns, if n <= 0 then [] else Take(SortDesc(CoerceColumn(f.rows, col), (row: Dict) => CellKey(Get(row, col, VNone))), n))
      case None => Frame(f.columns, Head(f.rows, n))
  }

  /**
   * With a fund column the top rows are the coerced rows in descending order
   * of inflow, rows without a number last, each taken from the table and none
   * more often than the table holds it, and all of them when `n` covers the
   * table; no row left out has a larger inflow than a kept one.
   */
  lemma TopRowsOrder(f: Frame, n: int)
    requires !f.IsEmpty() && FindColumn(f.columns, FundPatterns).Some? && n > 0
    ensures var col := FindColumn(f.columns, FundPatterns).value;
      var g := CoerceColumn(f.rows, col);
      var key := (row: Dict) => CellKey(Get(row, col, VNone));
      var r := TopRows(f, n);
      && Descending(r.rows, key)
      && (forall i | 0 <= i < |r.rows| :: r.rows[i] in multiset(g))
      && multiset(r.rows) <= multiset(g)
      && (|f.rows| <= n ==> multiset(r.rows) == multiset(g))
      && (forall row | row in g && row !in r.rows && Get(row, col, VNone).VFloat? ::
            forall i | 0 <= i < |r.rows| ::
              Get(r.rows[i], col, VNone).VFloat? && Get(r.rows[i], col, VNone).r >= Get(row, col, VNone).r)
  {
    var col := FindColumn(f.columns, FundPatterns).value;
    TopSpec(CoerceColumn(f.rows, col), (row: Dict) => CellKey(Get(row, col, VNone)), n);
    TopRowsLargest(f, n);
  }

  /** No row left out of `get_top_stocks` has a larger inflow than a kept one. */
  lemma TopRowsLargest(f: Frame, n: int)
    requires !f.IsEmpty() && FindColumn(f.columns, FundPatterns).Some? && n > 0
    ensures var col := FindColumn(f.columns, FundPatterns).value;
      var g := CoerceColumn(f.rows, col);
      var r := TopRows(f, n);
      forall row | row in g && row !in r.rows && Get(row, col, VNone).VFloat? ::
        forall i | 0 <= i < |r.rows| ::
          Get(r.rows[i], col, VNone).VFloat? && Get(r.rows[i], col, VNone).r >= Get(row, col, VNone).r
  {
    var col := FindColumn(f.columns, FundPatterns).value;
    var g := CoerceColumn(f.rows, col);
    var key := (row: Dict) => CellKey(Get(row, col, VNone));
    var r := TopRows(f, n);
    assert r.rows == Take(SortDesc(g, key), n);
    forall row, i | row in g && row !in r.rows && Get(row, col, VNone).VFloat? && 0 <= i < |r.rows|
      ensures Get(r.rows[i], col, VNone).VFloat? && Get(r.rows[i], col, VNone).r >= Get(row, col, VNone).r
    {
      TopAbove(g, key, n, row);
      assert AtLeast(key(r.rows[i]), key(row));
      CellAtLeast(Get(r.rows[i], col, VNone), Get(row, col, VNone));
    }
  }

  // ---- format_stock_list_for_analysis ----

  /** `row.get(a, row.get(b, "N/A"))` */
  function GetEither(row: Dict, a: string, b: string): Value
  {
    Get(row, a, Get(row, b, NA))
  }

  /** The score columns of a row as a dictionary. */
  function ScoresOf(columns: seq<string>, row: Dict): (d: Dict)
    ensures forall c :: c in d <==> c in columns && IsScoreColumn(c)
    ensures forall c | c in d :: d[c] == Get(row, c, NA)
  {
    map c | c in columns && IsScoreColumn(c) :: Get(row, c, NA)
  }

  /** The dictionary one row becomes, one field per key. */
  datatype StockEntry = StockEntry(
    symbol: Value, name: Value, industry: Value, marketCap: Value,
    rangeChange: Value, mainFundInflow: Value, peRatio: Value, pbRatio: Value,
    revenue: Value, netProfit: Value, scores: Dict, rawData: Dict)

  function StockDict(columns: seq<string>, row: Dict): (d: StockEntry)
    ensures d.symbol == Get(row, "股票代码", NA) && d.name == Get(row, "股票简称", NA)
    ensures d.industry == GetEither(row, "所属同花顺行业", "所属行业")
    ensures d.marketCap == GetEither(row, "总市值[20241209]", "总市值")
    ensures d.revenue == GetEither(row, "营业收入", "营收") && d.netProfit == Get(row, "净利润", NA)
    ensures d.peRatio == Get(row, "市盈率", NA) && d.pbRatio == Get(row, "市净率", NA)
    ensures FindColumn(columns, PctPatterns).None? ==> d.rangeChange == VNone
    ensures FindColumn(columns, PctPatterns).Some? ==> d.rangeChange == Get(row, FindColumn(columns, PctPatterns).value, NA)
    ensures FindColumn(columns, FundPatterns).None? ==> d.mainFundInflow == VNone
    ensures FindColumn(columns, FundPatterns).Some? ==> d.mainFundInflow == Get(row, FindColumn(columns, FundPatterns).value, NA)
    ensures d.scores == ScoresOf(columns, row) && d.rawData == row
  {
    var pct := FindColumn(columns, PctPatterns);
    var fund := FindColumn(columns, FundPatterns);
    StockEntry(
      Get(row, "股票代码", NA), Get(row, "股票简称", NA),
      GetEither(row, "所属同花顺行业", "所属行业"), GetEither(row, "总市值[20241209]", "总市值"),
      if pct.Some? then Get(row, pct.value, NA) else VNone,
      if fund.Some? then Get(row, fund.value, NA) else VNone,
      Get(row, "市盈率", NA), Get(row, "市净率", NA),
      GetEither(row, "营业收入", "营收"), Get(row, "净利润", NA),
      ScoresOf(columns, row), row)
  }

  class Selector {
    var rawData: Option<Frame>
    var filteredStocks: Option<Frame>

    constructor()
      ensures rawData.None? && filteredStocks.None?
    {
      rawData := None;
      filteredStocks := None;
    }

    /**
     * `get_main_force_stocks`: without a start date or `days_ago` the date
     * arithmetic raises; otherwise the four queries are tried in order and
     * the first non-empty table is kept in `raw_data` and returned.
     */
    method GetMainForceStocks(startDate: Option<string>, daysAgo: Option<int>, minCap: Option<real>, maxCap: Option<real>,
                              dateBefore: int -> string, ask: Query -> Result<Payload>)
      returns (ok: bool, df: Option<Frame>, msg: string)
      modifies this
      ensures filteredStocks == old(filteredStocks)
      ensures Blank(startDate) && daysAgo.None? ==>
        !ok && df.None? && msg == FetchFailed + NoDays && rawData == old(rawData)
      ensures !(Blank(startDate) && daysAgo.None?) ==>
        var qs := Queries(StartDate(startDate, daysAgo, dateBefore), minCap, maxCap);
        var first := FirstUsable(qs, ask);
        && (ok <==> first.Some?)
        && (ok ==> df == Usable(ask(qs[first.value])) && rawData == df
                   && msg == "成功获取" + NatText(|df.value.rows|) + "只股票数据")
        && (!ok ==> df.None? && rawData == old(rawData) && msg == AllFailed)
    {
      if Blank(startDate) && daysAgo.None? {
        return false, None, FetchFailed + NoDays;
      }
      var fetched, table, fetchMsg, tried := FetchRawData(startDate, daysAgo, minCap, maxCap, dateBefore, ask);
      if !fetched {
        return false, None, fetchMsg;
      }
      rawData := table;
      return true, table, "成功获取" + NatText(|table.value.rows|) + "只股票数据";
    }

    /** `filter_stocks`: the filtered table, also kept in `filtered_stocks` unless the input was empty. */
    method FilterStocks(f: Frame, maxRange: Option<real>, minCap: Option<real>, maxCap: Option<real>) returns (r: Frame)
      modifies this
      ensures r == Filtered(f, maxRange, minCap, maxCap)
      ensures rawData == old(rawData)
      ensures filteredStocks == if f.IsEmpty() then old(filteredStocks) else Some(r)
    {
      r := Filtered(f, maxRange, minCap, maxCap);
      if !f.IsEmpty() {
        filteredStocks := Some(r);
      }
    }

    /** `format_stock_list_for_analysis`: one dictionary per row, in row order. */
    method FormatStockList(f: Frame) returns (list: seq<StockEntry>)
      ensures f.IsEmpty() ==> list == []
      ensures !f.IsEmpty() ==> (|list| == |f.rows|
        && forall i | 0 <= i < |f.rows| :: list[i] == StockDict(f.columns, f.rows[i]))
    {
      if f.IsEmpty() {
        return [];
      }
      list := [];
      var i := 0;
      while i < |f.rows|
        invariant 0 <= i <= |f.rows| && |list| == i
        invariant forall j | 0 <= j < i :: list[j] == StockDict(f.columns, f.rows[j])
      {
        list := list + [StockDict(f.columns, f.rows[i])];
        i := i + 1;
      }
    }
  }
}
