/**
 * Market classification of a symbol and the small conversions the data
 * sources apply to codes, dates, periods and cell values. The same helpers
 * are defined twice in the repository (the data-source manager and the
 * legacy market-data provider); they are modelled once.
 */
module Markets {
  import opened Wrappers
  import opened Strings
  import opened Numbers
  import opened Values

  /** `is_chinese_stock`: exactly six decimal digits. */
  predicate IsChineseStock(symbol: string)
  {
    IsDigits(symbol) && |symbol| == 6
  }

  /** `symbol.upper().startswith("HK")` */
  predicate HasHkPrefix(symbol: string)
  {
    |symbol| >= 2 && UpperChar(symbol[0]) == 'H' && UpperChar(symbol[1]) == 'K'
  }

  /** `is_hk_stock`: an "HK" prefix in any letter case, or one to five digits. An A-share code is never one. */
  function IsHkStock(symbol: string): (hk: bool)
    ensures IsChineseStock(symbol) ==> !hk
    ensures IsDigits(symbol) ==> (hk <==> |symbol| <= 5)
    ensures |symbol| >= 2 && symbol[..2] in {"HK", "Hk", "hK", "hk"} ==> hk
  {
    HasHkPrefix(symbol) || (IsDigits(symbol) && 1 <= |symbol| <= 5)
  }

  datatype Market = AShare | HongKong | US

  /** The dispatch every fetcher front applies: A-share first, then Hong Kong, everything else US. */
  function MarketOf(symbol: string): (m: Market)
    ensures m == AShare <==> IsChineseStock(symbol)
    ensures m == HongKong <==> IsHkStock(symbol)
    ensures m == US <==> !IsChineseStock(symbol) && !IsHkStock(symbol)
  {
    if IsChineseStock(symbol) then AShare else if IsHkStock(symbol) then HongKong else US
  }

  /** The code after a leading "HK" prefix is dropped. */
  function HkBody(symbol: string): string
  {
    if HasHkPrefix(symbol) then symbol[2..] else symbol
  }

  lemma {:induction false} ZerosValue(k: nat)
    ensures AllDigits(Repeat('0', k)) && DigitsValue(Repeat('0', k)) == 0
  {
    if k > 0 {
      ZerosValue(k - 1);
      var z := Repeat('0', k);
      assert z[..k - 1] == Repeat('0', k - 1);
    }
  }

  /** Leading zeros do not change the value of a digit string. */
  lemma {:induction false} LeadingZeros(k: nat, s: string)
    requires AllDigits(s)
    ensures AllDigits(Repeat('0', k) + s) && DigitsValue(Repeat('0', k) + s) == DigitsValue(s)
  {
    ZerosValue(k);
    if |s| > 0 {
      var t := Repeat('0', k) + s;
      LeadingZeros(k, s[..|s| - 1]);
      assert t[..|t| - 1] == Repeat('0', k) + s[..|s| - 1];
    } else {
      assert Repeat('0', k) + s == Repeat('0', k);
    }
  }

  /**
   * `normalize_hk_code`: drop an "HK" prefix and left-pad with '0' to five
   * characters; a longer code is kept as it is. A numeric code keeps its value.
   */
  function NormalizeHkCode(symbol: string): (code: string)
    ensures |code| == if |HkBody(symbol)| >= 5 then |HkBody(symbol)| else 5
    ensures |HkBody(symbol)| >= 5 ==> code == HkBody(symbol)
    ensures IsDigits(HkBody(symbol)) ==> IsDigits(code) && DigitsValue(code) == DigitsValue(HkBody(symbol))
  {
    var body := HkBody(symbol);
    if IsDigits(body) && |body| < 5 then
      LeadingZeros(5 - |body|, body);
      ZFill(body, 5)
    else ZFill(body, 5)
  }

  /** Days of history the A-share fetcher asks for: 1y, 6mo and 3mo are known, anything else is a year. */
  function ChinaLookbackDays(period: string): (days: nat)
    ensures days in {365, 180, 90}
    ensures period !in {"6mo", "3mo"} <==> days == 365
  {
    if period == "1y" then 365 else if period == "6mo" then 180 else if period == "3mo" then 90 else 365
  }

  /** Days of history the Hong Kong fetcher asks for: as for A-shares, and 1mo is 30 days. */
  function HkLookbackDays(period: string): (days: nat)
    ensures days == 30 <==> period == "1mo"
  {
    if period == "1y" then 365 else if period == "6mo" then 180 else if period == "3mo" then 90
    else if period == "1mo" then 30 else 365
  }

  /** The two lookbacks differ only on "1mo". */
  lemma LookbacksAgree(period: string)
    ensures period != "1mo" ==> HkLookbackDays(period) == ChinaLookbackDays(period)
    ensures period == "1mo" ==> HkLookbackDays(period) == 30 && ChinaLookbackDays(period) == 365
  {
  }

  /** The exchange suffix Tushare uses for a six-digit code, chosen by its first digit. */
  function TsExchange(first: char): (ex: string)
    ensures ex in {"SH", "SZ", "BJ"}
    ensures ex == "SH" <==> first == '6'
    ensures ex == "BJ" <==> first == '8' || first == '4'
  {
    if first == '6' then "SH" else if first == '0' || first == '3' then "SZ"
    else if first == '8' || first == '4' then "BJ" else "SZ"
  }

  /** `_convert_to_ts_code`: a six-character code gains "." and its exchange; anything else is unchanged. */
  function ToTsCode(symbol: string): (ts: string)
    ensures |symbol| != 6 ==> ts == symbol
    ensures |symbol| == 6 ==> |ts| == 9 && ts[..6] == symbol && ts[6] == '.' && ts[7..] in {"SH", "SZ", "BJ"}
  {
    if |symbol| != 6 then symbol else symbol + "." + TsExchange(symbol[0])
  }

  /** `_convert_from_ts_code`: the part before the first '.', or the whole code. */
  function FromTsCode(ts: string): (symbol: string)
    ensures '.' !in symbol
    ensures '.' !in ts ==> symbol == ts
  {
    if '.' in ts then Split(ts, '.')[0] else ts
  }

  /** Splitting a text at a separator it contains first after `a` gives `a` as the first piece. */
  lemma {:induction false} SplitFirstPiece(a: string, c: char, b: string)
    requires c !in a
    ensures Split(a + [c] + b, c)[0] == a
  {
    if |a| == 0 {
      assert a + [c] + b == [c] + b;
    } else {
      SplitFirstPiece(a[1..], c, b);
      assert (a + [c] + b)[1..] == a[1..] + [c] + b;
    }
  }

  /** Converting a code without '.' to the Tushare form and back gives the code. */
  lemma TsCodeRoundTrip(symbol: string)
    requires '.' !in symbol
    ensures FromTsCode(ToTsCode(symbol)) == symbol
  {
    if |symbol| == 6 {
      SplitFirstPiece(symbol, '.', TsExchange(symbol[0]));
      assert symbol + "." + TsExchange(symbol[0]) == symbol + ['.'] + TsExchange(symbol[0]);
    }
  }

  /**
   * The start and end dates `get_stock_hist_data` sends: a given date loses
   * every '-', a missing start stays missing, and a missing end is today's date.
   */
  function HistDates(start: Option<string>, end: Option<string>, today: string): (r: (Option<string>, string))
    requires '-' !in today
    ensures r.0.Some? ==> '-' !in r.0.value
    ensures '-' !in r.1
    ensures start.None? ==> r.0.None?
    ensures (end.None? || end == Some("")) ==> r.1 == today
  {
    var s := if start.Some? && start.value != "" then Some(RemoveChar(start.value, '-')) else start;
    var e := if end.Some? && end.value != "" then RemoveChar(end.value, '-') else today;
    assert s.Some? ==> '-' !in s.value;
    (s, e)
  }

  /** The Tushare adjustment for an akshare one: "qfq" and "hfq" are kept, "" means none, anything else is "qfq". */
  function TushareAdjust(adjust: string): (adj: Option<string>)
    ensures adj.None? <==> adjust == ""
    ensures adj.Some? ==> adj.value in {"qfq", "hfq"}
    ensures adjust in {"qfq", "hfq"} ==> adj == Some(adjust)
  {
    if adjust == "qfq" then Some("qfq") else if adjust == "hfq" then Some("hfq")
    else if adjust == "" then None else Some("qfq")
  }

  /** A text cell without its '%' and ',' characters. */
  function CleanNumberText(s: string): (t: string)
    ensures '%' !in t && ',' !in t
    ensures |t| <= |s|
  {
    RemoveChar(RemoveChar(s, '%'), ',')
  }

  /**
   * `_safe_convert`: None and "" become "N/A"; text loses '%' and ',' and is
   * read as a float, the cleaned text being returned when it does not read;
   * any other value passes through.
   */
  function SafeConvert(v: Value): (r: Value)
    ensures v == VNone || v == VStr("") ==> r == VStr("N/A")
    ensures v != VNone && !v.VStr? ==> r == v
    ensures v.VStr? && v.s != "" ==>
      if ParseDecimal(CleanNumberText(v.s)).Some? then r == VFloat(ParseDecimal(CleanNumberText(v.s)).value)
      else r == VStr(CleanNumberText(v.s))
    ensures r.VStr? && r != VStr("N/A") ==> '%' !in r.s && ',' !in r.s
  {
    if v == VNone || v == VStr("") then VStr("N/A")
    else if v.VStr? then
      var t := CleanNumberText(v.s);
      match ParseDecimal(t)
      case Some(x) => VFloat(x)
      case None => VStr(t)
    else v
  }

  const PeBound := 1000.0
  const PbBound := 100.0
  const NotAvailable := VStr("N/A")

  /** One valuation cell (`市盈率` or `市净率`): taken when it is truthy, not "-", and reads as a number in (0, bound]. */
  function AcceptRatio(cell: Value, bound: real, current: Value): (r: Value)
    ensures r == current || (r.VFloat? && 0.0 < r.r <= bound)
    ensures r != current ==> ToFloat(cell).Some? && r == VFloat(ToFloat(cell).value)
    ensures Truthy(cell) && cell != VStr("-") && ToFloat(cell).Some? && 0.0 < ToFloat(cell).value <= bound ==>
      r == VFloat(ToFloat(cell).value)
  {
    if Truthy(cell) && cell != VStr("-") then
      match ToFloat(cell)
      case Some(x) => if 0.0 < x <= bound then VFloat(x) else current
      case None => current
    else current
  }

  /**
   * What the individual-information step left for one ratio: the call
   * answered, with the ratio's cell if it had one; or the call raised, and
   * the Tushare `daily_basic` row of the day was read (only when Tushare is
   * configured and the name is still "未知", and the frame is not empty).
   */
  datatype IndividualInfo =
    | IndividualRows(cell: Option<Value>)
    | IndividualFailed(dailyBasic: Option<Dict>)

  /**
   * The A-share PE (or PB) in the stock information: "N/A", then the
   * individual-information cell if there is one, or, when that call raised,
   * the `daily_basic` row's `column` entry ("N/A" when missing), stored as it
   * is; then, only while still "N/A", the Baidu valuation cell. On the
   * akshare and Baidu path the result is "N/A" or a number in (0, bound];
   * a `daily_basic` value other than "N/A" is kept unchecked and stops the
   * Baidu correction.
   */
  function ChineseRatio(individual: IndividualInfo, column: string, baidu: Option<Value>, bound: real): (r: Value)
    ensures !(individual.IndividualFailed? && individual.dailyBasic.Some?) ==>
      r == NotAvailable || (r.VFloat? && 0.0 < r.r <= bound)
    ensures individual.IndividualFailed? && individual.dailyBasic.Some? ==>
      var stored := Get(individual.dailyBasic.value, column, NotAvailable);
      if stored != NotAvailable then r == stored
      else r == NotAvailable || (r.VFloat? && 0.0 < r.r <= bound)
    ensures individual.IndividualRows? && individual.cell.Some? && r == NotAvailable ==>
      AcceptRatio(individual.cell.value, bound, NotAvailable) == NotAvailable
    ensures r == NotAvailable && baidu.Some? ==> AcceptRatio(baidu.value, bound, NotAvailable) == NotAvailable
  {
    var first :=
      match individual
      case IndividualRows(Some(cell)) => AcceptRatio(cell, bound, NotAvailable)
      case IndividualRows(None) => NotAvailable
      case IndividualFailed(Some(row)) => Get(row, column, NotAvailable)
      case IndividualFailed(None) => NotAvailable;
    if first == NotAvailable && baidu.Some? then AcceptRatio(baidu.value, bound, first) else first
  }

  const FinancialErrorPrefix := "获取财务数据失败: "

  /** `get_financial_data`: the market's fetcher, a raised error becoming an "error" dictionary. */
  function FinancialData(symbol: string, fetch: Market -> Result<Value>): (r: Value)
    ensures fetch(MarketOf(symbol)).Ok? ==> r == fetch(MarketOf(symbol)).value
    ensures fetch(MarketOf(symbol)).Err? ==>
      r.VDict? && r.entries.Keys == {"error"} && r.entries["error"] == VStr(FinancialErrorPrefix + fetch(MarketOf(symbol)).error)
  {
    match fetch(MarketOf(symbol))
    case Ok(v) => v
    case Err(e) => VDict(map["error" := VStr(FinancialErrorPrefix + e)])
  }
}
