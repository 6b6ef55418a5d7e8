/**
 * The table handling the main-force provider and the older selector share:
 * matching columns by name fragments, turning unit-suffixed amounts into
 * numbers, the lenient float conversion, and turning a wencai answer into a
 * table.
 */
module MainForceTables {
  import opened Wrappers
  import opened Strings
  import opened Numbers
  import opened Values
  import opened Frames

  // ---- column matching ----

  /** The interval price-change column names, in priority order. */
  const PctPatterns: seq<string> := ["区间涨跌幅:前复权", "区间涨跌幅:前复权(%)", "区间涨跌幅(%)", "区间涨跌幅",
                                     "涨跌幅:前复权", "涨跌幅:前复权(%)", "涨跌幅(%)", "涨跌幅"]

  /** The main-force fund-flow column names, in priority order. */
  const FundPatterns: seq<string> := ["区间主力资金流向", "区间主力资金净流入", "主力资金流向", "主力资金净流入", "主力净流入"]

  /** The market-capitalisation column names, in priority order. */
  const CapPatterns: seq<string> := ["总市值", "市值"]

  /** The index of the first column containing `p`. */
  function FirstContaining(columns: seq<string>, p: string): (j: Option<nat>)
    ensures j.Some? ==> (j.value < |columns| && Contains(columns[j.value], p)
                         && forall k | 0 <= k < j.value :: !Contains(columns[k], p))
    ensures j.None? ==> forall k | 0 <= k < |columns| :: !Contains(columns[k], p)
  {
    if |columns| == 0 then None
    else if Contains(columns[0], p) then Some(0)
    else
      var rest := FirstContaining(columns[1..], p);
      assert forall k | 1 <= k < |columns| :: columns[k] == columns[1..][k - 1];
      if rest.Some? then Some(rest.value + 1) else None
  }

  /**
   * `_find_column`: the patterns are tried in order and, for each, the columns
   * in order; the first column containing a pattern wins. The answer is the
   * pair (pattern index, column index).
   */
  function FindIndex(columns: seq<string>, patterns: seq<string>): (r: Option<(nat, nat)>)
    ensures r.Some? ==> (r.value.0 < |patterns| && r.value.1 < |columns|
                         && Contains(columns[r.value.1], patterns[r.value.0])
                         && (forall i, k | 0 <= i < r.value.0 && 0 <= k < |columns| :: !Contains(columns[k], patterns[i]))
                         && (forall k | 0 <= k < r.value.1 :: !Contains(columns[k], patterns[r.value.0])))
    ensures r.None? ==> forall i, k | 0 <= i < |patterns| && 0 <= k < |columns| :: !Contains(columns[k], patterns[i])
  {
    if |patterns| == 0 then None
    else
      var j := FirstContaining(columns, patterns[0]);
      if j.Some? then Some((0, j.value))
      else
        var rest := FindIndex(columns, patterns[1..]);
        assert forall i | 1 <= i < |patterns| :: patterns[i] == patterns[1..][i - 1];
        if rest.Some? then Some((rest.value.0 + 1, rest.value.1)) else None
  }

  /** `_find_column(df, patterns)`: the matching column's name, or `None`. */
  function FindColumn(columns: seq<string>, patterns: seq<string>): (c: Option<string>)
    ensures c.Some? ==> c.value in columns && exists i | 0 <= i < |patterns| :: Contains(c.value, patterns[i])
    ensures c.None? <==> forall i, k | 0 <= i < |patterns| && 0 <= k < |columns| :: !Contains(columns[k], patterns[i])
  {
    var r := FindIndex(columns, patterns);
    if r.Some? then Some(columns[r.value.1]) else None
  }

  /** A column whose name is one of the patterns itself is found when no earlier pattern matches anything. */
  lemma FindColumnPriority(columns: seq<string>, patterns: seq<string>, i: nat, k: nat)
    requires i < |patterns| && k < |columns| && Contains(columns[k], patterns[i])
    requires forall i', k' | 0 <= i' < i && 0 <= k' < |columns| :: !Contains(columns[k'], patterns[i'])
    requires forall k' | 0 <= k' < k :: !Contains(columns[k'], patterns[i])
    ensures FindColumn(columns, patterns) == Some(columns[k])
  {
    var r := FindIndex(columns, patterns);
    assert r.Some?;
    if r.value.0 < i {
    } else if r.value.0 > i {
    } else {
      if r.value.1 < k {
      } else if r.value.1 > k {
      }
    }
  }

  /** `[c for c in columns if any(p in c for p in patterns)][0]`: the first column containing any pattern. */
  function FirstMatch(columns: seq<string>, patterns: seq<string>): (c: Option<string>)
    ensures c.Some? ==> c.value in columns && exists i | 0 <= i < |patterns| :: Contains(c.value, patterns[i])
    ensures c.None? ==> forall k, i | 0 <= k < |columns| && 0 <= i < |patterns| :: !Contains(columns[k], patterns[i])
  {
    if |columns| == 0 then None
    else if exists i | 0 <= i < |patterns| :: Contains(columns[0], patterns[i]) then Some(columns[0])
    else
      var rest := FirstMatch(columns[1..], patterns);
      assert forall k | 1 <= k < |columns| :: columns[k] == columns[1..][k - 1];
      rest
  }

  // ---- amounts ----

  /** `c in t`, spelled out one character at a time. */
  predicate Has(t: string, c: char)
  {
    |t| > 0 && (t[0] == c || Has(t[1..], c))
  }

  lemma {:induction false} HasIn(t: string, c: char)
    ensures Has(t, c) <==> c in t
  {
    if |t| > 0 {
      HasIn(t[1..], c);
      assert t == [t[0]] + t[1..];
    }
  }

  /** A reading scaled by a unit's size; 0.0 when `float()` raised. */
  function Scaled(o: Option<real>, size: real): Value
  {
    match o
    case Some(x) => VFloat(x * size)
    case None => VFloat(0.0)
  }

  /** A stripped amount text read with its 亿 (10^8) or 万 (10^4) unit, 亿 taking precedence. */
  function ParseUnitText(t: string): Value
  {
    if Has(t, '亿') then Scaled(ParseDecimal(RemoveChar(t, '亿')), 100000000.0)
    else if Has(t, '万') then Scaled(ParseDecimal(RemoveChar(t, '万')), 10000.0)
    else VStr(t)
  }

  /**
   * `parse_val` of `_normalize_currency_column`: a text is stripped and read
   * with its unit; a text carrying no unit is only stripped; anything else
   * is left alone.
   */
  function ParseUnit(v: Value): (r: Value)
    ensures !v.VStr? ==> r == v
    ensures v.VStr? ==> r == ParseUnitText(Strip(v.s))
  {
    match v
    case VStr(s) => ParseUnitText(Strip(s))
    case _ => v
  }

  /** What `parse_val` makes of a text: a number when a unit is present, else the stripped text. */
  lemma ParseUnitCases(s: string)
    ensures var t := Strip(s);
      && ('亿' in t ==> ParseUnit(VStr(s)) == Scaled(ParseDecimal(RemoveChar(t, '亿')), 100000000.0))
      && ('亿' !in t && '万' in t ==> ParseUnit(VStr(s)) == Scaled(ParseDecimal(RemoveChar(t, '万')), 10000.0))
      && ('亿' !in t && '万' !in t ==> ParseUnit(VStr(s)) == VStr(t))
      && (('亿' in t || '万' in t) ==> ParseUnit(VStr(s)).VFloat?)
  {
    HasIn(Strip(s), '亿');
    HasIn(Strip(s), '万');
  }

  lemma {:induction false} RemoveCharAppend(a: string, b: string, c: char)
    ensures RemoveChar(a + b, c) == RemoveChar(a, c) + RemoveChar(b, c)
  {
    if |a| > 0 {
      var head := if a[0] == c then "" else [a[0]];
      assert (a + b)[0] == a[0] && (a + b)[1..] == a[1..] + b;
      assert RemoveChar(a + b, c) == head + RemoveChar(a[1..] + b, c);
      RemoveCharAppend(a[1..], b, c);
      assert RemoveChar(a, c) == head + RemoveChar(a[1..], c);
      assert head + (RemoveChar(a[1..], c) + RemoveChar(b, c)) == (head + RemoveChar(a[1..], c)) + RemoveChar(b, c);
    } else {
      assert a + b == b;
    }
  }

  /** `pd.to_numeric(v, errors="coerce")`: the number a cell reads as, or `None` for NaN. */
  function Numeric(v: Value): Option<real>
  {
    ToFloat(v)
  }

  /** The largest of a non-empty list of numbers. */
  function MaxOf(xs: seq<real>): (m: real)
    requires |xs| > 0
    ensures forall i | 0 <= i < |xs| :: xs[i] <= m
    ensures exists i | 0 <= i < |xs| :: xs[i] == m
  {
    if |xs| == 1 then xs[0]
    else
      var rest := MaxOf(xs[1..]);
      assert forall i | 1 <= i < |xs| :: xs[i] == xs[1..][i - 1];
      if xs[0] >= rest then xs[0] else rest
  }

  lemma {:induction false} MaxAtMost(xs: seq<real>, bound: real)
    requires |xs| > 0 && forall i | 0 <= i < |xs| :: xs[i] <= bound
    ensures MaxOf(xs) <= bound
  {
    if |xs| > 1 {
      assert forall i | 0 <= i < |xs| - 1 :: xs[1..][i] == xs[i + 1];
      MaxAtMost(xs[1..], bound);
    }
  }

  /** A column's cells after `parse_val`, `to_numeric` and `fillna(0)`. */
  function ParsedColumn(rows: seq<Dict>, col: string): (xs: seq<real>)
    ensures |xs| == |rows|
    ensures forall i | 0 <= i < |rows| :: xs[i] == Numeric(ParseUnit(Get(rows[i], col, VNone))).GetOr(0.0)
  {
    seq(|rows|, i requires 0 <= i < |rows| => Numeric(ParseUnit(Get(rows[i], col, VNone))).GetOr(0.0))
  }

  /** Whether a column holds amounts in yuan: its maximum exceeds 100000 (an empty column's maximum is NaN). */
  predicate InYuan(xs: seq<real>)
  {
    |xs| > 0 && MaxOf(xs) > 100000.0
  }

  /** `rows[i][col] = xs[i]` for every row. */
  function SetColumn(rows: seq<Dict>, col: string, xs: seq<real>): (r: seq<Dict>)
    requires |xs| == |rows|
    ensures |r| == |rows| && forall i | 0 <= i < |rows| :: r[i] == rows[i][col := VFloat(xs[i])]
  {
    seq(|rows|, i requires 0 <= i < |rows| => rows[i][col := VFloat(xs[i])])
  }

  /** A column's numbers in units of 亿: divided by 10^8 when they are in yuan, as they are otherwise. */
  function InYi(xs: seq<real>): (ys: seq<real>)
    ensures |ys| == |xs|
    ensures InYuan(xs) ==> forall i | 0 <= i < |xs| :: ys[i] == xs[i] / 100000000.0
    ensures !InYuan(xs) ==> ys == xs
  {
    if InYuan(xs) then seq(|xs|, i requires 0 <= i < |xs| => xs[i] / 100000000.0) else xs
  }

  /**
   * `_normalize_currency_column`: a column that exists is rewritten as numbers
   * (unit texts expanded, anything unreadable 0), and divided by 10^8 when
   * its maximum exceeds 100000, so that it is in units of 亿; the other
   * columns and the row count are unchanged.
   */
  function NormalizeCurrency(f: Frame, col: string): (r: Frame)
    ensures r.columns == f.columns && |r.rows| == |f.rows|
    ensures col !in f.columns ==> r == f
    ensures col in f.columns ==> r.rows == SetColumn(f.rows, col, InYi(ParsedColumn(f.rows, col)))
  {
    if col !in f.columns then f
    else Frame(f.columns, SetColumn(f.rows, col, InYi(ParsedColumn(f.rows, col))))
  }

  /** The numbers a normalised column holds. */
  function ColumnNumbers(rows: seq<Dict>, col: string): (xs: seq<real>)
    requires forall i | 0 <= i < |rows| :: col in rows[i] && rows[i][col].VFloat?
    ensures |xs| == |rows| && forall i | 0 <= i < |rows| :: xs[i] == rows[i][col].r
  {
    seq(|rows|, i requires 0 <= i < |rows| => rows[i][col].r)
  }

  /** After normalising, every cell of the column is a number. */
  lemma NormalizedNumeric(f: Frame, col: string)
    requires col in f.columns
    ensures var r := NormalizeCurrency(f, col);
      forall i | 0 <= i < |r.rows| :: col in r.rows[i] && r.rows[i][col].VFloat?
        && r.rows[i] - {col} == f.rows[i] - {col}
  {
    var r := NormalizeCurrency(f, col);
    forall i | 0 <= i < |r.rows| ensures r.rows[i] - {col} == f.rows[i] - {col} {
      assert r.rows[i] == f.rows[i][col := r.rows[i][col]];
    }
  }

  /** A column in yuan ends up in 亿: each cell is its reading divided by 10^8. */
  lemma NormalizedScale(f: Frame, col: string, i: nat)
    requires col in f.columns && i < |f.rows|
    ensures var xs := ParsedColumn(f.rows, col);
      NormalizeCurrency(f, col).rows[i][col]
        == VFloat(if InYuan(xs) then xs[i] / 100000000.0 else xs[i])
  {
  }

  /** Reading a column of numbers back gives those numbers. */
  lemma ParsedNumbers(rows: seq<Dict>, col: string)
    requires forall i | 0 <= i < |rows| :: col in rows[i] && rows[i][col].VFloat?
    ensures ParsedColumn(rows, col) == ColumnNumbers(rows, col)
  {
    var xs := ParsedColumn(rows, col);
    forall i | 0 <= i < |rows| ensures xs[i] == rows[i][col].r {
      assert ParseUnit(rows[i][col]) == rows[i][col];
    }
  }

  /** Writing a column's own numbers back leaves the rows as they were. */
  lemma SetOwnColumn(rows: seq<Dict>, col: string)
    requires forall i | 0 <= i < |rows| :: col in rows[i] && rows[i][col].VFloat?
    ensures SetColumn(rows, col, ColumnNumbers(rows, col)) == rows
  {
    var r := SetColumn(rows, col, ColumnNumbers(rows, col));
    forall i | 0 <= i < |rows| ensures r[i] == rows[i] {
      assert r[i] == rows[i][col := VFloat(rows[i][col].r)];
    }
  }

  /**
   * Normalising a second time changes nothing when the first pass left the
   * column's maximum at or below 100000.
   */
  lemma NormalizeIdempotent(f: Frame, col: string)
    requires col in f.columns
    requires var r := NormalizeCurrency(f, col);
      forall i | 0 <= i < |r.rows| :: r.rows[i][col].r <= 100000.0
    ensures NormalizeCurrency(NormalizeCurrency(f, col), col) == NormalizeCurrency(f, col)
  {
    var r := NormalizeCurrency(f, col);
    NormalizedNumeric(f, col);
    ParsedNumbers(r.rows, col);
    var xs := ColumnNumbers(r.rows, col);
    if |xs| > 0 {
      MaxAtMost(xs, 100000.0);
    }
    assert !InYuan(ParsedColumn(r.rows, col));
    SetOwnColumn(r.rows, col);
  }

  /** `_safe_float`: '%' dropped from a text, then `float()`; 0.0 whenever that raises, `None` included. */
  function SafeFloat(v: Value): (r: real)
    ensures v.VNone? ==> r == 0.0
    ensures !v.VStr? ==> r == ToFloat(v).GetOr(0.0)
    ensures v.VStr? ==> r == ParseDecimal(RemoveChar(v.s, '%')).GetOr(0.0)
  {
    if v.VStr? then ParseDecimal(RemoveChar(v.s, '%')).GetOr(0.0) else ToFloat(v).GetOr(0.0)
  }

  /** A percentage text of digits reads as its number. */
  lemma SafeFloatPercent(d: string)
    requires IsDigits(d)
    ensures SafeFloat(VStr(d + "%")) == DigitsValue(d) as real
  {
    ParseDigits(d);
    assert '%' !in d by {
      forall i | 0 <= i < |d| ensures d[i] != '%' { assert IsDigit(d[i]); }
    }
    DropSuffix(d, '%');
  }

  lemma DropSuffix(d: string, u: char)
    requires u !in d
    ensures RemoveChar(d + [u], u) == d
  {
    RemoveCharAppend(d, [u], u);
    assert RemoveChar([u], u) == "";
  }

  // ---- wencai answers ----

  /** A Python dict with its key order. */
  datatype Record = Record(keys: seq<string>, cells: Dict)

  /** What a dict's "tableV1" entry is, when it is a table: a DataFrame or a list of records. */
  datatype Table = NoTable | TableFrame(frame: Frame) | TableRecords(records: seq<Record>)

  /**
   * What `pywencai.get` answers: `None`, a DataFrame, a dict (with its
   * "tableV1" entry when that is a table), a list of records, or anything else.
   */
  datatype Payload = PNone | PFrame(frame: Frame) | PDict(record: Record, tableV1: Table) | PList(records: seq<Record>) | POther(v: Value)

  /** The keys of `rs` in first-appearance order, after those of `acc`. */
  function KeysInOrder(acc: seq<string>, keys: seq<string>): (r: seq<string>)
    ensures forall c :: c in r <==> c in acc || c in keys
    ensures |acc| <= |r| && r[..|acc|] == acc
    decreases |keys|
  {
    if |keys| == 0 then acc
    else if keys[0] in acc then KeysInOrder(acc, keys[1..])
    else KeysInOrder(acc + [keys[0]], keys[1..])
  }

  /** `pd.DataFrame(records).columns`: the keys in first-appearance order. */
  function RecordColumns(rs: seq<Record>): (cols: seq<string>)
    ensures forall c :: c in cols <==> exists i | 0 <= i < |rs| :: c in rs[i].keys
  {
    if |rs| == 0 then []
    else
      var init := RecordColumns(rs[..|rs| - 1]);
      var r := KeysInOrder(init, rs[|rs| - 1].keys);
      assert forall i | 0 <= i < |rs| - 1 :: rs[..|rs| - 1][i] == rs[i];
      r
  }

  /** A record as a table row: a cell for every column, NaN (`VNone`) where the record has no entry. */
  function RowOf(r: Record, columns: seq<string>): (row: Dict)
    ensures row.Keys == set c | c in columns
    ensures forall c | c in columns :: row[c] == Get(r.cells, c, VNone)
  {
    map c | c in columns :: Get(r.cells, c, VNone)
  }

  /** `pd.DataFrame(records)`: one row per record, in order. */
  function FrameOf(rs: seq<Record>): (f: Frame)
    ensures |f.rows| == |rs| && f.columns == RecordColumns(rs)
    ensures forall i | 0 <= i < |rs| :: f.rows[i] == RowOf(rs[i], f.columns)
    ensures f.WellFormed()
  {
    var cols := RecordColumns(rs);
    Frame(cols, seq(|rs|, i requires 0 <= i < |rs| => RowOf(rs[i], cols)))
  }

  /**
   * `_convert_to_dataframe`: a DataFrame as it is; a dict's "tableV1" table
   * when it has one; any other dict as one row; a list as rows; anything else
   * `None`.
   */
  function ConvertToDataFrame(p: Payload): (r: Option<Frame>)
    ensures p.PFrame? ==> r == Some(p.frame)
    ensures p.PDict? && p.tableV1.TableFrame? ==> r == Some(p.tableV1.frame)
    ensures p.PDict? && p.tableV1.TableRecords? ==> r == Some(FrameOf(p.tableV1.records))
    ensures p.PDict? && p.tableV1.NoTable? ==> r == Some(FrameOf([p.record])) && |r.value.rows| == 1
    ensures p.PList? ==> r == Some(FrameOf(p.records)) && |r.value.rows| == |p.records|
    ensures p.PNone? || p.POther? <==> r.None?
  {
    match p
    case PFrame(f) => Some(f)
    case PDict(rec, table) =>
      (match table
       case TableFrame(f) => Some(f)
       case TableRecords(rs) => Some(FrameOf(rs))
       case NoTable => Some(FrameOf([rec])))
    case PList(rs) => Some(FrameOf(rs))
    case _ => None
  }

  /**
   * One of the four wencai queries, by plan number (1 the fullest, 4 the
   * simplest). The query wording is not modelled; a query is identified by
   * its plan, its start date and the capitalisation bounds it names.
   */
  datatype Query = Query(plan: nat, startDate: string, minCap: Option<real>, maxCap: Option<real>)

  /** The queries `_fetch_raw_data` tries, in order. */
  function Queries(startDate: string, minCap: Option<real>, maxCap: Option<real>): (qs: seq<Query>)
    ensures |qs| == 4 && forall i | 0 <= i < 4 :: qs[i] == Query(i + 1, startDate, minCap, maxCap)
  {
    [Query(1, startDate, minCap, maxCap), Query(2, startDate, minCap, maxCap),
     Query(3, startDate, minCap, maxCap), Query(4, startDate, minCap, maxCap)]
  }

  /** What one query attempt yields: a non-empty table, or nothing (it raised, answered `None`, or gave an empty table). */
  function Usable(answer: Result<Payload>): (f: Option<Frame>)
    ensures f.Some? <==> answer.Ok? && ConvertToDataFrame(answer.value).Some? && !ConvertToDataFrame(answer.value).value.IsEmpty()
    ensures f.Some? ==> f == ConvertToDataFrame(answer.value)
  {
    if answer.Err? then None
    else
      var df := ConvertToDataFrame(answer.value);
      if df.Some? && !df.value.IsEmpty() then df else None
  }

  /** The position of the first query whose answer is usable. */
  function FirstUsable(qs: seq<Query>, ask: Query -> Result<Payload>): (i: Option<nat>)
    ensures i.Some? ==> (i.value < |qs| && Usable(ask(qs[i.value])).Some?
                         && forall j | 0 <= j < i.value :: Usable(ask(qs[j])).None?)
    ensures i.None? ==> forall j | 0 <= j < |qs| :: Usable(ask(qs[j])).None?
  {
    if |qs| == 0 then None
    else if Usable(ask(qs[0])).Some? then Some(0)
    else
      var rest := FirstUsable(qs[1..], ask);
      assert forall j | 1 <= j < |qs| :: qs[j] == qs[1..][j - 1];
      if rest.Some? then Some(rest.value + 1) else None
  }

  // ---- row selection ----

  /** `df.head(n)`: the first `n` rows, or all but the last `-n` for a negative `n`. */
  function Head(rows: seq<Dict>, n: int): (r: seq<Dict>)
    ensures n >= 0 ==> |r| == (if n < |rows| then n else |rows|)
    ensures |r| <= |rows| && r == rows[..|r|]
  {
    if n >= 0 then (if n < |rows| then rows[..n] else rows)
    else if |rows| + n > 0 then rows[..|rows| + n] else []
  }

  /** `df["股票简称"].str.contains("ST", na=False)`: only a text cell can match. */
  predicate NamedST(row: Dict)
  {
    var v := Get(row, "股票简称", VNone);
    v.VStr? && Contains(v.s, "ST")
  }
}
