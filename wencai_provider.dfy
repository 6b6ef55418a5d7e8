/**
 * `PyWencaiMainForceProvider`: fetch the main-force ranking from wencai with
 * a four-step query fallback, filter it by price change, capitalisation and
 * ST status, keep the top rows by main-force inflow and turn the rows into
 * `MainForceStock` records. wencai itself is an oracle `ask` from query to
 * answer (an `Err` is an exception it raised); the clock is an oracle
 * `dateBefore` from a number of days to the date text that many days ago.
 */
module WencaiProvider {
  import opened Wrappers
  import opened Strings
  import opened Values
  import opened Frames
  import opened Sorting
  import opened Lists
  import opened MainForceModel
  import opened MainForceTables

  /** The caller's inputs to `get_main_force_stocks`; `None` is Python's `None`. */
  datatype Request = Request(
    startDate: Option<string>, daysAgo: Option<int>,
    minCap: Option<real>, maxCap: Option<real>,
    maxRangeChange: Option<real>, topN: Option<int>)

  const AllFailed := "所有查询方案都失败了，请检查网络或稍后重试"

  /** The start date the queries name: the caller's when it is non-empty, else `days_ago` (10 by default) days back. */
  function StartDate(startDate: Option<string>, daysAgo: Option<int>, dateBefore: int -> string): string
  {
    if startDate.Some? && startDate.value != "" then startDate.value else dateBefore(daysAgo.GetOr(10))
  }

  /**
   * `_fetch_raw_data`: the queries are tried in order and the first usable
   * answer wins; `tried` is the queries sent, so the fallback stops at the
   * first success and tries every plan otherwise.
   */
  method FetchRawData(startDate: Option<string>, daysAgo: Option<int>, minCap: Option<real>, maxCap: Option<real>,
                      dateBefore: int -> string, ask: Query -> Result<Payload>)
    returns (ok: bool, df: Option<Frame>, msg: string, tried: seq<Query>)
    ensures var qs := Queries(StartDate(startDate, daysAgo, dateBefore), minCap, maxCap);
      var first := FirstUsable(qs, ask);
      && (ok <==> first.Some?)
      && (ok ==> df == Usable(ask(qs[first.value])) && tried == qs[..first.value + 1] && msg == "Success")
      && (!ok ==> df.None? && tried == qs && msg == AllFailed)
    ensures ok ==> df.Some? && !df.value.IsEmpty()
  {
    var qs := Queries(StartDate(startDate, daysAgo, dateBefore), minCap, maxCap);
    tried := [];
    var i := 0;
    while i < |qs|
      invariant 0 <= i <= |qs| && tried == qs[..i]
      invariant forall j | 0 <= j < i :: Usable(ask(qs[j])).None?
    {
      var answer := ask(qs[i]);
      tried := tried + [qs[i]];
      var frame := Usable(answer);
      if frame.Some? {
        assert tried == qs[..i + 1];
        return true, frame, "Success", tried;
      }
      i := i + 1;
    }
    return false, None, AllFailed, tried;
  }

  // ---- filtering ----

  /** `pd.to_numeric(cell, errors="coerce")`: the number, or NaN (`VNone`). */
  function NumericCell(v: Value): (r: Value)
    ensures r.VFloat? <==> Numeric(v).Some?
    ensures r.VFloat? ==> r.r == Numeric(v).value
  {
    match Numeric(v)
    case Some(x) => VFloat(x)
    case None => VNone
  }

  /** The rows with one column coerced to numbers. */
  function CoerceColumn(rows: seq<Dict>, col: string): (r: seq<Dict>)
    ensures |r| == |rows| && forall i | 0 <= i < |rows| :: r[i] == rows[i][col := NumericCell(Get(rows[i], col, VNone))]
  {
    seq(|rows|, i requires 0 <= i < |rows| => rows[i][col := NumericCell(Get(rows[i], col, VNone))])
  }

  /** A row whose cell is a number below `bound` (NaN is not). */
  predicate Below(row: Dict, col: string, bound: real)
  {
    var v := Get(row, col, VNone);
    v.VFloat? && v.r < bound
  }

  /** A row whose cell is a number in `[lo, hi]`. */
  predicate Within(row: Dict, col: string, lo: real, hi: real)
  {
    var v := Get(row, col, VNone);
    v.VFloat? && lo <= v.r <= hi
  }

  /** Python truthiness of an optional number. */
  predicate Given(x: Option<real>) { x.Some? && x.value != 0.0 }

  /** Step 1 of `_filter_stocks`: keep the rows whose price change reads as a number below the bound. */
  function RangeStep(f: Frame, maxRange: real): (r: Frame)
    ensures r.columns == f.columns && |r.rows| <= |f.rows|
    ensures FindColumn(f.columns, PctPatterns).None? ==> r == f
    ensures FindColumn(f.columns, PctPatterns).Some? ==>
      forall k | 0 <= k < |r.rows| :: Below(r.rows[k], FindColumn(f.columns, PctPatterns).value, maxRange)
  {
    match FindColumn(f.columns, PctPatterns)
    case None => f
    case Some(col) => Frame(f.columns, Filter(CoerceColumn(f.rows, col), (row: Dict) => Below(row, col, maxRange)))
  }

  /** Step 2: the capitalisation column in 亿, and the `[min, max]` bounds applied only when both are truthy. */
  function CapStep(f: Frame, minCap: Option<real>, maxCap: Option<real>): (r: Frame)
    ensures r.columns == f.columns && |r.rows| <= |f.rows|
    ensures FindColumn(f.columns, CapPatterns).None? ==> r == f
    ensures FindColumn(f.columns, CapPatterns).Some? && !(Given(minCap) && Given(maxCap)) ==>
      r == NormalizeCurrency(f, FindColumn(f.columns, CapPatterns).value)
    ensures FindColumn(f.columns, CapPatterns).Some? && Given(minCap) && Given(maxCap) ==>
      forall k | 0 <= k < |r.rows| :: Within(r.rows[k], FindColumn(f.columns, CapPatterns).value, minCap.value, maxCap.value)
  {
    match FindColumn(f.columns, CapPatterns)
    case None => f
    case Some(col) =>
      var g := NormalizeCurrency(f, col);
      if Given(minCap) && Given(maxCap) then
        Frame(g.columns, Filter(g.rows, (row: Dict) => Within(row, col, minCap.value, maxCap.value)))
      else g
  }

  /** Step 3: rows whose 股票简称 contains "ST" are dropped, when the column exists. */
  function DropST(f: Frame): (r: Frame)
    ensures r.columns == f.columns && |r.rows| <= |f.rows|
    ensures "股票简称" !in f.columns ==> r == f
    ensures "股票简称" in f.columns ==> forall k | 0 <= k < |r.rows| :: !NamedST(r.rows[k])
  {
    if "股票简称" in f.columns then Frame(f.columns, Filter(f.rows, (row: Dict) => !NamedST(row))) else f
  }

  /** `_filter_stocks`: an empty table is returned as it is; otherwise the three steps in order. */
  function FilterStocks(f: Frame, maxRange: real, minCap: Option<real>, maxCap: Option<real>): Frame
  {
    if f.IsEmpty() then f else DropST(CapStep(RangeStep(f, maxRange), minCap, maxCap))
  }

  /** The capitalisation step rewrites only its own column, so a price-change bound the rows met still holds. */
  lemma CapKeepsBelow(a: Frame, minCap: Option<real>, maxCap: Option<real>, pct: string, bound: real)
    requires forall row | row in a.rows :: Below(row, pct, bound)
    requires FindColumn(a.columns, CapPatterns).Some? ==> pct != FindColumn(a.columns, CapPatterns).value
    ensures forall row | row in CapStep(a, minCap, maxCap).rows :: Below(row, pct, bound)
  {
    match FindColumn(a.columns, CapPatterns)
    case None =>
    case Some(col) =>
      var g := NormalizeCurrency(a, col);
      forall k | 0 <= k < |g.rows| ensures Below(g.rows[k], pct, bound) {
        assert a.rows[k] in a.rows;
        if col in a.columns {
          assert Get(g.rows[k], pct, VNone) == Get(a.rows[k], pct, VNone);
        }
      }
      if Given(minCap) && Given(maxCap) {
        FilterSubset(g.rows, (row: Dict) => Within(row, col, minCap.value, maxCap.value));
      }
  }

  /** Dropping ST rows keeps only rows of its input. */
  lemma DropSTSubset(f: Frame)
    ensures forall row | row in DropST(f).rows :: row in f.rows
  {
    if "股票简称" in f.columns {
      FilterSubset(f.rows, (row: Dict) => !NamedST(row));
    }
  }

  /**
   * What the filter guarantees: every row it keeps has a price change that is
   * a number below the bound (when the capitalisation column is another
   * column), a capitalisation in 亿 within the bounds when both are truthy,
   * and no "ST" in its name; the columns stay and no row is added. Conversely
   * every row that qualifies is kept (`FilterStocksComplete`): an input row
   * below the bound passes step 1 coerced, and a row passing step 1 that
   * meets the capitalisation and name tests, in 亿, is in the result.
   */
  lemma FilterStocksSpec(f: Frame, maxRange: real, minCap: Option<real>, maxCap: Option<real>)
    requires !f.IsEmpty()
    ensures var r := FilterStocks(f, maxRange, minCap, maxCap);
      var pct, cap := FindColumn(f.columns, PctPatterns), FindColumn(f.columns, CapPatterns);
      && r.columns == f.columns && |r.rows| <= |f.rows|
      && (pct.Some? && (cap.Some? ==> pct != cap) ==> forall row | row in r.rows :: Below(row, pct.value, maxRange))
      && (cap.Some? && Given(minCap) && Given(maxCap) ==>
            forall row | row in r.rows :: Within(row, cap.value, minCap.value, maxCap.value))
      && ("股票简称" in f.columns ==> forall row | row in r.rows :: !NamedST(row))
    ensures var a, r := RangeStep(f, maxRange), FilterStocks(f, maxRange, minCap, maxCap);
      var pct := FindColumn(f.columns, PctPatterns);
      && (pct.Some? ==> forall i | 0 <= i < |f.rows| && Below(CoerceColumn(f.rows, pct.value)[i], pct.value, maxRange) ::
            CoerceColumn(f.rows, pct.value)[i] in a.rows)
      && (forall row | row in CapRows(a) && CapOk(a, minCap, maxCap, row) && NameOk(f.columns, row) :: row in r.rows)
  {
    FilterStocksComplete(f, maxRange, minCap, maxCap);
    var a := RangeStep(f, maxRange);
    var b := CapStep(a, minCap, maxCap);
    DropSTSubset(b);
    var pct, cap := FindColumn(f.columns, PctPatterns), FindColumn(f.columns, CapPatterns);
    if pct.Some? && (cap.Some? ==> pct != cap) {
      assert forall row | row in a.rows :: Below(row, pct.value, maxRange);
      CapKeepsBelow(a, minCap, maxCap, pct.value, maxRange);
    }
    if cap.Some? && Given(minCap) && Given(maxCap) {
      assert forall row | row in b.rows :: Within(row, cap.value, minCap.value, maxCap.value);
    }
  }

  /** Step 1 keeps exactly the coerced rows whose price change is a number below the bound. */
  lemma RangeStepKeeps(f: Frame, maxRange: real)
    ensures FindColumn(f.columns, PctPatterns).Some? ==>
      var col := FindColumn(f.columns, PctPatterns).value;
      forall row :: row in RangeStep(f, maxRange).rows <==> row in CoerceColumn(f.rows, col) && Below(row, col, maxRange)
  {
    if FindColumn(f.columns, PctPatterns).Some? {
      var col := FindColumn(f.columns, PctPatterns).value;
      FilterMembers(CoerceColumn(f.rows, col), (row: Dict) => Below(row, col, maxRange));
    }
  }

  /** The rows of `a` with the capitalisation column in 亿, as step 2 sees them. */
  function CapRows(a: Frame): seq<Dict>
  {
    match FindColumn(a.columns, CapPatterns)
    case None => a.rows
    case Some(col) => NormalizeCurrency(a, col).rows
  }

  /** The bounds of step 2: a capitalisation in `[min, max]`, demanded only when the column exists and both bounds are truthy. */
  predicate CapOk(a: Frame, minCap: Option<real>, maxCap: Option<real>, row: Dict)
  {
    FindColumn(a.columns, CapPatterns).Some? && Given(minCap) && Given(maxCap) ==>
      Within(row, FindColumn(a.columns, CapPatterns).value, minCap.value, maxCap.value)
  }

  /** Step 3's test: no "ST" in the name, demanded only when the name column exists. */
  predicate NameOk(columns: seq<string>, row: Dict)
  {
    "股票简称" in columns ==> !NamedST(row)
  }

  /** Step 2 keeps exactly the normalised rows within the bounds. */
  lemma CapStepKeeps(a: Frame, minCap: Option<real>, maxCap: Option<real>)
    ensures forall row :: row in CapStep(a, minCap, maxCap).rows <==> row in CapRows(a) && CapOk(a, minCap, maxCap, row)
  {
    match FindColumn(a.columns, CapPatterns)
    case None =>
    case Some(col) =>
      if Given(minCap) && Given(maxCap) {
        FilterMembers(NormalizeCurrency(a, col).rows, (row: Dict) => Within(row, col, minCap.value, maxCap.value));
      }
  }

  /** Step 3 keeps exactly the rows whose name carries no "ST". */
  lemma DropSTKeeps(b: Frame)
    ensures forall row :: row in DropST(b).rows <==> row in b.rows && NameOk(b.columns, row)
  {
    if "股票简称" in b.columns {
      FilterMembers(b.rows, (row: Dict) => !NamedST(row));
    }
  }

  /**
   * The filter keeps every row that qualifies: each input row whose price
   * change reads as a number below the bound passes step 1 with that cell
   * coerced, and each row passing step 1 that, with its capitalisation in
   * 亿, lies within the truthy bounds and carries no "ST" is in the result.
   */
  lemma FilterStocksComplete(f: Frame, maxRange: real, minCap: Option<real>, maxCap: Option<real>)
    requires !f.IsEmpty()
    ensures var a, r := RangeStep(f, maxRange), FilterStocks(f, maxRange, minCap, maxCap);
      var pct := FindColumn(f.columns, PctPatterns);
      && (pct.Some? ==> forall i | 0 <= i < |f.rows| && Below(CoerceColumn(f.rows, pct.value)[i], pct.value, maxRange) ::
            CoerceColumn(f.rows, pct.value)[i] in a.rows)
      && (pct.None? ==> a == f)
      && (forall row | row in CapRows(a) && CapOk(a, minCap, maxCap, row) && NameOk(f.columns, row) :: row in r.rows)
  {
    var a := RangeStep(f, maxRange);
    var b := CapStep(a, minCap, maxCap);
    RangeStepKeeps(f, maxRange);
    CapStepKeeps(a, minCap, maxCap);
    DropSTKeeps(b);
  }

  /** The cells a filter may rewrite: the columns it found. */
  function Names(c: Option<string>): set<string>
  {
    if c.Some? then {c.value} else {}
  }

  /** A row seen without the rewritten cells. */
  function Outside(cols: set<string>): Dict -> Dict
  {
    (row: Dict) => row - cols
  }

  /** Setting a cell among `cols` leaves the rest of the row as it was. */
  lemma UpdateOutside(row: Dict, col: string, v: Value, cols: set<string>)
    requires col in cols
    ensures row[col := v] - cols == row - cols
  {
    assert forall k :: k in row[col := v] - cols <==> k in row - cols;
  }

  /** Rows that differ only in `cols` look the same from outside `cols`. */
  lemma SameOutside(rows: seq<Dict>, rows': seq<Dict>, col: string, cols: set<string>)
    requires col in cols && |rows'| == |rows|
    requires forall i | 0 <= i < |rows| :: col in rows'[i] && rows'[i] == rows[i][col := rows'[i][col]]
    ensures Map(rows', Outside(cols)) == Map(rows, Outside(cols))
  {
    forall i | 0 <= i < |rows| ensures Outside(cols)(rows'[i]) == Outside(cols)(rows[i]) {
      UpdateOutside(rows[i], col, rows'[i][col], cols);
    }
  }

  /** A stage that rewrites cells in `cols` and then keeps some rows keeps the rest of each row and the order. */
  lemma StageOrder(rows: seq<Dict>, rows': seq<Dict>, p: Dict -> bool, cols: set<string>)
    requires Map(rows', Outside(cols)) == Map(rows, Outside(cols))
    ensures SubsequenceOf(Map(Filter(rows', p), Outside(cols)), Map(rows, Outside(cols)))
  {
    FilterSubsequence(rows', p, Outside(cols));
  }

  lemma CoercedOutside(rows: seq<Dict>, col: string, cols: set<string>)
    requires col in cols
    ensures Map(CoerceColumn(rows, col), Outside(cols)) == Map(rows, Outside(cols))
  {
    SameOutside(rows, CoerceColumn(rows, col), col, cols);
  }

  lemma NormalizedOutside(f: Frame, col: string, cols: set<string>)
    requires col in cols
    ensures Map(NormalizeCurrency(f, col).rows, Outside(cols)) == Map(f.rows, Outside(cols))
  {
    if col in f.columns {
      SameOutside(f.rows, NormalizeCurrency(f, col).rows, col, cols);
    }
  }

  /**
   * The filter keeps rows in their order: outside the price-change and
   * capitalisation cells it rewrites, the result is the input with rows left
   * out.
   */
  lemma FilterStocksOrder(f: Frame, maxRange: real, minCap: Option<real>, maxCap: Option<real>)
    ensures var cols := Names(FindColumn(f.columns, PctPatterns)) + Names(FindColumn(f.columns, CapPatterns));
      SubsequenceOf(Map(FilterStocks(f, maxRange, minCap, maxCap).rows, Outside(cols)), Map(f.rows, Outside(cols)))
  {
    var cols := Names(FindColumn(f.columns, PctPatterns)) + Names(FindColumn(f.columns, CapPatterns));
    var v := Outside(cols);
    if f.IsEmpty() {
      SubsequenceRefl(Map(f.rows, v));
      return;
    }
    var a := RangeStep(f, maxRange);
    var b := CapStep(a, minCap, maxCap);
    RangeStepOrder(f, maxRange, cols);
    CapStepOrder(a, minCap, maxCap, cols);
    DropSTOrder(b, cols);
    SubsequenceTrans(Map(b.rows, v), Map(a.rows, v), Map(f.rows, v));
    SubsequenceTrans(Map(DropST(b).rows, v), Map(b.rows, v), Map(f.rows, v));
  }

  /** The price-change stage keeps rows in order outside the columns `cols`, which hold the column it rewrites. */
  lemma RangeStepOrder(f: Frame, maxRange: real, cols: set<string>)
    requires FindColumn(f.columns, PctPatterns).Some? ==> FindColumn(f.columns, PctPatterns).value in cols
    ensures SubsequenceOf(Map(RangeStep(f, maxRange).rows, Outside(cols)), Map(f.rows, Outside(cols)))
  {
    match FindColumn(f.columns, PctPatterns) {
      case None => SubsequenceRefl(Map(f.rows, Outside(cols)));
      case Some(col) =>
        CoercedOutside(f.rows, col, cols);
        StageOrder(f.rows, CoerceColumn(f.rows, col), (row: Dict) => Below(row, col, maxRange), cols);
    }
  }

  /** The capitalisation stage keeps rows in order outside the columns `cols`, which hold the column it rewrites. */
  lemma CapStepOrder(a: Frame, minCap: Option<real>, maxCap: Option<real>, cols: set<string>)
    requires FindColumn(a.columns, CapPatterns).Some? ==> FindColumn(a.columns, CapPatterns).value in cols
    ensures SubsequenceOf(Map(CapStep(a, minCap, maxCap).rows, Outside(cols)), Map(a.rows, Outside(cols)))
  {
    match FindColumn(a.columns, CapPatterns) {
      case None => SubsequenceRefl(Map(a.rows, Outside(cols)));
      case Some(col) =>
        var g := NormalizeCurrency(a, col);
        NormalizedOutside(a, col, cols);
        if Given(minCap) && Given(maxCap) {
          StageOrder(a.rows, g.rows, (row: Dict) => Within(row, col, minCap.value, maxCap.value), cols);
        } else {
          SubsequenceRefl(Map(a.rows, Outside(cols)));
        }
    }
  }

  /** Dropping ST names keeps the other rows in order. */
  lemma DropSTOrder(b: Frame, cols: set<string>)
    ensures SubsequenceOf(Map(DropST(b).rows, Outside(cols)), Map(b.rows, Outside(cols)))
  {
    if "股票简称" in b.columns {
      FilterSubsequence(b.rows, (row: Dict) => !NamedST(row), Outside(cols));
    } else {
      SubsequenceRefl(Map(b.rows, Outside(cols)));
    }
  }

  // ---- top rows ----

  /** The sort key of a normalised cell; a cell that is not a number sorts lowest. */
  function CellKey(v: Value): Key
  {
    if v.VFloat? then Fin(v.r) else NegInf
  }

  /** `_get_top_stocks`: by the fund column (normalised) descending, else the first rows. */
  function TopStocks(f: Frame, n: int): (r: Frame)
    ensures r.columns == f.columns
    ensures f.IsEmpty() ==> r == f
    ensures !f.IsEmpty() ==> (n >= 0 ==> |r.rows| <= n) && |r.rows| <= |f.rows|
    ensures !f.IsEmpty() && FindColumn(f.columns, FundPatterns).None? ==> r.rows == f.rows[..|r.rows|]
  {
    if f.IsEmpty() then f
    else match FindColumn(f.columns, FundPatterns)
      case Some(col) =>
        var g := NormalizeCurrency(f, col);
        Frame(g.columns, if n <= 0 then [] else Take(SortDesc(g.rows, (row: Dict) => CellKey(Get(row, col, VNone))), n))
      case None => Frame(f.columns, Head(f.rows, n))
  }

  /** A cell key at least another's: a cell that is not a number only ever sits below. */
  lemma CellAtLeast(a: Value, b: Value)
    requires AtLeast(CellKey(a), CellKey(b))
    ensures b.VFloat? ==> a.VFloat? && a.r >= b.r
  {
  }

  /**
   * The order `_get_top_stocks` gives with a fund column: the normalised rows
   * in descending order of inflow, each taken from the table and none more
   * often than the table holds it, and all of them when `n` covers the table;
   * no row left out has a larger inflow than a kept one.
   */
  lemma TopStocksOrder(f: Frame, n: int)
    requires !f.IsEmpty() && FindColumn(f.columns, FundPatterns).Some? && n > 0
    ensures var col := FindColumn(f.columns, FundPatterns).value;
      var g := NormalizeCurrency(f, col);
      var key := (row: Dict) => CellKey(Get(row, col, VNone));
      var r := TopStocks(f, n);
      && Descending(r.rows, key)
      && (forall i | 0 <= i < |r.rows| :: r.rows[i] in multiset(g.rows))
      && multiset(r.rows) <= multiset(g.rows)
      && (|f.rows| <= n ==> multiset(r.rows) == multiset(g.rows))
      && (forall row | row in g.rows && row !in r.rows && Get(row, col, VNone).VFloat? ::
            forall i | 0 <= i < |r.rows| ::
              Get(r.rows[i], col, VNone).VFloat? && Get(r.rows[i], col, VNone).r >= Get(row, col, VNone).r)
  {
    var col := FindColumn(f.columns, FundPatterns).value;
    var g := NormalizeCurrency(f, col);
    var key := (row: Dict) => CellKey(Get(row, col, VNone));
    TopSpec(g.rows, key, n);
    TopStocksLargest(f, n);
  }

  /** No row left out of `_get_top_stocks` has a larger inflow than a kept one. */
  lemma TopStocksLargest(f: Frame, n: int)
    requires !f.IsEmpty() && FindColumn(f.columns, FundPatterns).Some? && n > 0
    ensures var col := FindColumn(f.columns, FundPatterns).value;
      var g := NormalizeCurrency(f, col);
      var r := TopStocks(f, n);
      forall row | row in g.rows && row !in r.rows && Get(row, col, VNone).VFloat? ::
        forall i | 0 <= i < |r.rows| ::
          Get(r.rows[i], col, VNone).VFloat? && Get(r.rows[i], col, VNone).r >= Get(row, col, VNone).r
  {
    var col := FindColumn(f.columns, FundPatterns).value;
    var g := NormalizeCurrency(f, col);
    var key := (row: Dict) => CellKey(Get(row, col, VNone));
    var r := TopStocks(f, n);
    assert r.rows == Take(SortDesc(g.rows, key), n);
    forall row, i | row in g.rows && row !in r.rows && Get(row, col, VNone).VFloat? && 0 <= i < |r.rows|
      ensures Get(r.rows[i], col, VNone).VFloat? && Get(r.rows[i], col, VNone).r >= Get(row, col, VNone).r
    {
      TopAbove(g.rows, key, n, row);
      assert AtLeast(key(r.rows[i]), key(row));
      CellAtLeast(Get(r.rows[i], col, VNone), Get(row, col, VNone));
    }
  }

  // ---- domain objects ----

  /** The columns `_convert_to_domain_objects` reads, each found by its own patterns. */
  datatype Columns = Columns(
    cap: Option<string>, fund: Option<string>, pct: Option<string>, industry: Option<string>,
    revenue: Option<string>, netProfit: Option<string>, pe: Option<string>, pb: Option<string>,
    scores: seq<string>)

  /** A column holding a score: its name contains 评分 or 能力. */
  predicate IsScoreColumn(c: string) { Contains(c, "评分") || Contains(c, "能力") }

  function ColumnsOf(columns: seq<string>): (cs: Columns)
    ensures forall c :: c in cs.scores <==> c in columns && IsScoreColumn(c)
  {
    FilterKeepsOrder(columns, IsScoreColumn);
    var scores := Filter(columns, IsScoreColumn);
    assert forall c | c in scores :: c in columns && IsScoreColumn(c) by {
      forall c | c in scores ensures c in columns {
        var k :| 0 <= k < |scores| && scores[k] == c;
      }
    }
    Columns(FindColumn(columns, CapPatterns), FindColumn(columns, FundPatterns), FindColumn(columns, PctPatterns),
            FindColumn(columns, ["所属同花顺行业", "所属行业", "行业"]), FindColumn(columns, ["营业收入", "营收"]),
            FindColumn(columns, ["净利润"]), FindColumn(columns, ["市盈率"]), FindColumn(columns, ["市净率"]),
            scores)
  }

  /** `str(row.get(col, "N/A"))` when the column was found, else "N/A". */
  function TextOf(row: Dict, col: Option<string>): string
  {
    if col.Some? then Str(Get(row, col.value, VStr("N/A"))) else "N/A"
  }

  /** `_safe_float(row.get(col, default))` when the column was found, else 0.0. */
  function AmountOf(row: Dict, col: Option<string>, default: Value): real
  {
    if col.Some? then SafeFloat(Get(row, col.value, default)) else 0.0
  }

  /** One `MainForceStock` from a table row. */
  function StockOf(cs: Columns, row: Dict): (s: Stock)
    ensures s.rawData == row && |s.scores| == |cs.scores|
    ensures forall i | 0 <= i < |cs.scores| :: s.scores[i] == (cs.scores[i], Get(row, cs.scores[i], VStr("N/A")))
    ensures s.symbol == Str(Get(row, "股票代码", VStr("N/A"))) && s.name == Str(Get(row, "股票简称", VStr("N/A")))
    ensures cs.cap.None? ==> s.marketCap == 0.0
    ensures cs.fund.None? ==> s.mainFundInflow == 0.0
    ensures cs.pct.None? ==> s.rangeChange == 0.0
    ensures s.peRatio.Some? && s.pbRatio.Some? && s.revenue.Some? && s.netProfit.Some?
  {
    Stock(Str(Get(row, "股票代码", VStr("N/A"))), Str(Get(row, "股票简称", VStr("N/A"))), TextOf(row, cs.industry),
          AmountOf(row, cs.cap, VInt(0)), AmountOf(row, cs.pct, VInt(0)), AmountOf(row, cs.fund, VInt(0)),
          Some(AmountOf(row, cs.pe, VNone)), Some(AmountOf(row, cs.pb, VNone)),
          Some(TextOf(row, cs.revenue)), Some(TextOf(row, cs.netProfit)),
          seq(|cs.scores|, i requires 0 <= i < |cs.scores| => (cs.scores[i], Get(row, cs.scores[i], VStr("N/A")))),
          row)
  }

  /** The table with the capitalisation and fund columns normalised, as `_convert_to_domain_objects` first does. */
  function Prepared(f: Frame): (g: Frame)
    ensures g.columns == f.columns && |g.rows| == |f.rows|
  {
    var cap := FindColumn(f.columns, CapPatterns);
    var fund := FindColumn(f.columns, FundPatterns);
    var g := if cap.Some? then NormalizeCurrency(f, cap.value) else f;
    if fund.Some? then NormalizeCurrency(g, fund.value) else g
  }

  /** `_convert_to_domain_objects`: one stock per row, in row order; none for an empty table. */
  method ConvertToDomain(f: Frame) returns (stocks: seq<Stock>)
    ensures f.IsEmpty() ==> stocks == []
    ensures !f.IsEmpty() ==> (|stocks| == |f.rows|
      && forall i | 0 <= i < |f.rows| :: stocks[i] == StockOf(ColumnsOf(f.columns), Prepared(f).rows[i]))
  {
    if f.IsEmpty() {
      return [];
    }
    var g := Prepared(f);
    var cs := ColumnsOf(g.columns);
    stocks := [];
    var i := 0;
    while i < |g.rows|
      invariant 0 <= i <= |g.rows| && |stocks| == i
      invariant forall j | 0 <= j < i :: stocks[j] == StockOf(cs, g.rows[j])
    {
      stocks := stocks + [StockOf(cs, g.rows[i])];
      i := i + 1;
    }
  }

  /** The table `get_main_force_stocks` turns into stocks: filtered when a price bound is given, cut when `top_n` is given. */
  function Selected(f: Frame, req: Request): Frame
  {
    var a := if req.maxRangeChange.Some? then FilterStocks(f, req.maxRangeChange.value, req.minCap, req.maxCap) else f;
    if req.topN.Some? then TopStocks(a, req.topN.value) else a
  }

  /**
   * `get_main_force_stocks`: a failed fetch gives (False, [], its message);
   * otherwise the selected rows as stocks and a message counting them.
   */
  method GetMainForceStocks(req: Request, dateBefore: int -> string, ask: Query -> Result<Payload>)
    returns (ok: bool, stocks: seq<Stock>, msg: string)
    ensures var qs := Queries(StartDate(req.startDate, req.daysAgo, dateBefore), req.minCap, req.maxCap);
      var first := FirstUsable(qs, ask);
      && (ok <==> first.Some?)
      && (!ok ==> stocks == [] && msg == AllFailed)
      && (ok ==> var f := Selected(Usable(ask(qs[first.value])).value, req);
                 && (f.IsEmpty() ==> stocks == [])
                 && (!f.IsEmpty() ==> (|stocks| == |f.rows|
                      && forall i | 0 <= i < |f.rows| :: stocks[i] == StockOf(ColumnsOf(f.columns), Prepared(f).rows[i])))
                 && msg == "成功获取 " + NatText(|stocks|) + " 只股票")
  {
    var fetched, df, fetchMsg, tried := FetchRawData(req.startDate, req.daysAgo, req.minCap, req.maxCap, dateBefore, ask);
    if !fetched || df.None? {
      return false, [], fetchMsg;
    }
    var f := Selected(df.value, req);
    stocks := ConvertToDomain(f);
    return true, stocks, "成功获取 " + NatText(|stocks|) + " 只股票";
  }
}
