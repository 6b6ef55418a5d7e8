/**
 * The market-data providers' `get_stock_data_bundle`: history, technical
 * indicators and the latest-indicator snapshot, each step's error handed on
 * as an `{"error": ...}` dictionary; and the snapshot's trend and signal
 * classification over the last two rows.
 */
module Indicators {
  import opened Wrappers
  import opened Values
  import opened Frames
  import opened Bundles

  /** What a fetch or a computation over a frame gives: a table, or an `{"error": message}` dictionary. */
  datatype Fetched = Table(frame: Frame) | Failed(error: string)

  function ErrorDict(message: string): Dict
  {
    map["error" := VStr(message)]
  }

  /**
   * `get_stock_data_bundle` of both providers, with the indicator computation
   * `indicate` and the snapshot `snapshot` as parameters: a history error gives no
   * history and the error as indicators; an indicator error keeps the raw
   * history; otherwise the computed frame is kept and the snapshot (or its
   * error) is the indicators. The optional blocks are all absent.
   */
  function ComposeBundle(info: Dict, raw: Fetched, indicate: Frame -> Fetched, snapshot: Frame -> Result<Dict>): (b: DataBundle)
    ensures b.stockInfo == info && b.indicators.Some?
    ensures b.financialData == VNone && b.fundFlowData.None? && b.sentimentData.None? && b.newsData.None?
    ensures b.quarterlyData.None? && b.riskData.None?
    ensures raw.Failed? ==> b.stockData.None? && b.indicators.value == ErrorDict(raw.error)
    ensures raw.Table? && indicate(raw.frame).Failed? ==>
      b.stockData == Some(raw.frame) && b.indicators.value == ErrorDict(indicate(raw.frame).error)
    ensures raw.Table? && indicate(raw.frame).Table? ==>
      var computed := indicate(raw.frame).frame;
      b.stockData == Some(computed)
      && b.indicators.value == (if snapshot(computed).Ok? then snapshot(computed).value else ErrorDict(snapshot(computed).error))
  {
    var none := DataBundle(info, None, None, VNone, None, None, None, None, None);
    match raw
    case Failed(e) => none.(indicators := Some(ErrorDict(e)))
    case Table(f) =>
      match indicate(f)
      case Failed(e) => none.(stockData := Some(f), indicators := Some(ErrorDict(e)))
      case Table(g) =>
        var ind := match snapshot(g) case Ok(d) => d case Err(e) => ErrorDict(e);
        none.(stockData := Some(g), indicators := Some(ind))
  }

  const MinRows := 30
  const TooFewRowsError := "数据量不足，无法计算技术指标"

  /**
   * `_calculate_technical_indicators` of the adapter: fewer than 30 rows is an
   * error; otherwise `compute` (the `ta` library computations, outside the
   * model) gives the frame with the indicator columns.
   */
  function CalculateIndicators(f: Frame, compute: Frame -> Fetched): (r: Fetched)
    ensures |f.rows| < MinRows ==> r == Failed(TooFewRowsError)
    ensures |f.rows| >= MinRows ==> r == compute(f)
  {
    if |f.rows| < MinRows then Failed(TooFewRowsError) else compute(f)
  }

  /**
   * A cell of an indicator column: a number, or NaN, which pandas leaves where
   * a window is longer than the history (MA60 under 60 rows) and `bfill`
   * cannot fill a column that is NaN throughout.
   */
  datatype Cell = Num(x: real) | NaN

  /** `a > b` on cells: false whenever either is NaN. */
  predicate Gt(a: Cell, b: Cell) { a.Num? && b.Num? && a.x > b.x }

  /** `a < b` on cells: false whenever either is NaN. */
  predicate Lt(a: Cell, b: Cell) { a.Num? && b.Num? && a.x < b.x }

  /** `a <= b` on cells: false whenever either is NaN. */
  predicate Le(a: Cell, b: Cell) { a.Num? && b.Num? && a.x <= b.x }

  /** `a >= b` on cells: false whenever either is NaN. */
  predicate Ge(a: Cell, b: Cell) { a.Num? && b.Num? && a.x >= b.x }

  /** `f"{c:.1f}"`: NaN prints as "nan", and only NaN does. */
  function CellFixed1(c: Cell): (t: string)
    ensures c.NaN? <==> t == "nan"
  {
    if c.NaN? then "nan"
    else
      Fixed1Point(c.x);
      Fixed1(c.x)
  }

  /** `f"{c:.2f}"`: NaN prints as "nan", and only NaN does. */
  function CellFixed2(c: Cell): (t: string)
    ensures c.NaN? <==> t == "nan"
  {
    if c.NaN? then "nan"
    else
      Fixed2Point(c.x);
      Fixed2(c.x)
  }

  /** `float(c)` as a value: a number, or the model's missing number `None` for NaN. */
  function CellValue(c: Cell): (v: Value)
    ensures c.Num? <==> v.VFloat?
    ensures c.Num? ==> v == VFloat(c.x)
    ensures c.NaN? <==> v == VNone
  {
    if c.NaN? then VNone else VFloat(c.x)
  }

  /** The indicator cells of the latest row that the snapshot reads. */
  datatype Bar = Bar(close: Cell, ma5: Cell, ma20: Cell, ma60: Cell, rsi: Cell,
                     macd: Cell, macdSignal: Cell, macdHist: Cell, k: Cell, d: Cell, j: Cell)

  /** The cells of the previous row that the snapshot reads. */
  datatype Prev = Prev(close: Cell, macd: Cell, macdSignal: Cell, k: Cell, d: Cell)

  /** The columns the snapshot reads from the latest row. */
  const SnapshotColumns := ["Close", "MA5", "MA20", "MA60", "RSI", "MACD", "MACD_signal", "MACD_hist", "K", "D", "J"]

  /** The columns the snapshot reads from the previous row. */
  const PrevColumns := ["Close", "MACD", "MACD_signal", "K", "D"]

  /**
   * A cell read as a number or NaN; a missing column raises `KeyError`, and a
   * text or container cell is taken to make the comparisons raise.
   */
  function Number(row: Dict, column: string): (c: Option<Cell>)
    ensures column !in row ==> c.None?
    ensures column in row && row[column] == VNone ==> c == Some(NaN)
  {
    if column in row then
      match row[column]
      case VNone => Some(NaN)
      case VBool(b) => Some(Num(if b then 1.0 else 0.0))
      case VInt(i) => Some(Num(i as real))
      case VFloat(x) => Some(Num(x))
      case _ => None
    else None
  }

  /** The bar of a row, when every column the snapshot reads holds a number or NaN. */
  function BarOf(row: Dict): (b: Option<Bar>)
    ensures b.Some? ==>
      && Number(row, "Close") == Some(b.value.close) && Number(row, "RSI") == Some(b.value.rsi)
      && Number(row, "MA5") == Some(b.value.ma5) && Number(row, "MA20") == Some(b.value.ma20) && Number(row, "MA60") == Some(b.value.ma60)
      && Number(row, "MACD") == Some(b.value.macd) && Number(row, "MACD_signal") == Some(b.value.macdSignal)
      && Number(row, "MACD_hist") == Some(b.value.macdHist)
      && Number(row, "K") == Some(b.value.k) && Number(row, "D") == Some(b.value.d) && Number(row, "J") == Some(b.value.j)
  {
    var close := Number(row, "Close");
    var ma5 := Number(row, "MA5");
    var ma20 := Number(row, "MA20");
    var ma60 := Number(row, "MA60");
    var rsi := Number(row, "RSI");
    var macd := Number(row, "MACD");
    var signal := Number(row, "MACD_signal");
    var hist := Number(row, "MACD_hist");
    var k := Number(row, "K");
    var d := Number(row, "D");
    var j := Number(row, "J");
    if close.Some? && ma5.Some? && ma20.Some? && ma60.Some? && rsi.Some? && macd.Some? && signal.Some? && hist.Some?
       && k.Some? && d.Some? && j.Some?
    then Some(Bar(close.value, ma5.value, ma20.value, ma60.value, rsi.value, macd.value, signal.value, hist.value,
                  k.value, d.value, j.value))
    else None
  }

  /** A row gives a bar exactly when every column the snapshot reads is present and holds a number or NaN. */
  lemma BarOfColumns(row: Dict)
    ensures BarOf(row).Some? <==> forall c | c in SnapshotColumns :: Number(row, c).Some?
  {
    if BarOf(row).None? {
      var c :=
        if Number(row, "Close").None? then "Close" else if Number(row, "MA5").None? then "MA5"
        else if Number(row, "MA20").None? then "MA20" else if Number(row, "MA60").None? then "MA60"
        else if Number(row, "RSI").None? then "RSI" else if Number(row, "MACD").None? then "MACD"
        else if Number(row, "MACD_signal").None? then "MACD_signal" else if Number(row, "MACD_hist").None? then "MACD_hist"
        else if Number(row, "K").None? then "K" else if Number(row, "D").None? then "D" else "J";
      assert c in SnapshotColumns && Number(row, c).None?;
    }
  }

  /** The previous row's cells, when its five read columns hold a number or NaN. */
  function PrevOf(row: Dict): (p: Option<Prev>)
    ensures p.Some? <==> forall c | c in PrevColumns :: Number(row, c).Some?
    ensures p.Some? ==>
      && Number(row, "Close") == Some(p.value.close) && Number(row, "MACD") == Some(p.value.macd)
      && Number(row, "MACD_signal") == Some(p.value.macdSignal)
      && Number(row, "K") == Some(p.value.k) && Number(row, "D") == Some(p.value.d)
  {
    var close := Number(row, "Close");
    var macd := Number(row, "MACD");
    var signal := Number(row, "MACD_signal");
    var k := Number(row, "K");
    var d := Number(row, "D");
    if close.Some? && macd.Some? && signal.Some? && k.Some? && d.Some?
    then Some(Prev(close.value, macd.value, signal.value, k.value, d.value))
    else
      assert exists c | c in PrevColumns :: Number(row, c).None? by {
        if close.None? { assert "Close" in PrevColumns; }
        else if macd.None? { assert "MACD" in PrevColumns; }
        else if signal.None? { assert "MACD_signal" in PrevColumns; }
        else if k.None? { assert "K" in PrevColumns; }
        else { assert "D" in PrevColumns; }
      }
      None
  }

  /** The latest bar standing in for the previous row in a one-row frame. */
  function AsPrev(b: Bar): (p: Prev)
    ensures p.close == b.close && p.macd == b.macd && p.macdSignal == b.macdSignal && p.k == b.k && p.d == b.d
  {
    Prev(b.close, b.macd, b.macdSignal, b.k, b.d)
  }

  /** A present last row reads as the previous row as well. */
  lemma PrevOfBar(row: Dict)
    requires BarOf(row).Some?
    ensures PrevOf(row) == Some(AsPrev(BarOf(row).value))
  {
  }

  const Bullish := "多头排列"
  const Bearish := "空头排列"
  const Sideways := "震荡"

  /**
   * The moving-average trend: bullish when MA5 > MA20 > MA60, bearish when
   * MA5 < MA20 < MA60, sideways otherwise — in particular whenever an average
   * is NaN.
   */
  function Trend(b: Bar): (t: string)
    ensures t == Bullish <==> Gt(b.ma5, b.ma20) && Gt(b.ma20, b.ma60)
    ensures t == Bearish <==> Lt(b.ma5, b.ma20) && Lt(b.ma20, b.ma60)
    ensures t == Sideways <==> !(Gt(b.ma5, b.ma20) && Gt(b.ma20, b.ma60)) && !(Lt(b.ma5, b.ma20) && Lt(b.ma20, b.ma60))
    ensures b.ma5.NaN? || b.ma20.NaN? || b.ma60.NaN? ==> t == Sideways
  {
    if Gt(b.ma5, b.ma20) && Gt(b.ma20, b.ma60) then Bullish
    else if Lt(b.ma5, b.ma20) && Lt(b.ma20, b.ma60) then Bearish
    else Sideways
  }

  const MacdGolden := "MACD金叉"
  const MacdDeath := "MACD死叉"
  const KdjGolden := "KDJ金叉"
  const KdjDeath := "KDJ死叉"
  const RsiOverbought := "RSI超买"
  const RsiOversold := "RSI超卖"

  /** A golden cross of `a` over `b` between the previous and the latest row. */
  predicate CrossUp(a: Cell, b: Cell, prevA: Cell, prevB: Cell) { Gt(a, b) && Le(prevA, prevB) }

  /** A death cross of `a` under `b` between the previous and the latest row. */
  predicate CrossDown(a: Cell, b: Cell, prevA: Cell, prevB: Cell) { Lt(a, b) && Ge(prevA, prevB) }

  /** The group a signal belongs to: MACD, KDJ or RSI. */
  function SignalGroup(s: string): nat
  {
    if s == MacdGolden || s == MacdDeath then 0 else if s == KdjGolden || s == KdjDeath then 1 else 2
  }

  /** The MACD signal, if any; none when one of the four cells is NaN. */
  function MacdSignals(latest: Bar, prev: Prev): (s: seq<string>)
    ensures |s| <= 1
    ensures MacdGolden in s <==> CrossUp(latest.macd, latest.macdSignal, prev.macd, prev.macdSignal)
    ensures MacdDeath in s <==> CrossDown(latest.macd, latest.macdSignal, prev.macd, prev.macdSignal)
    ensures forall x | x in s :: SignalGroup(x) == 0
    ensures latest.macd.NaN? || latest.macdSignal.NaN? || prev.macd.NaN? || prev.macdSignal.NaN? ==> s == []
  {
    if CrossUp(latest.macd, latest.macdSignal, prev.macd, prev.macdSignal) then [MacdGolden]
    else if CrossDown(latest.macd, latest.macdSignal, prev.macd, prev.macdSignal) then [MacdDeath]
    else []
  }

  /** The KDJ signal, if any; none when one of the four cells is NaN. */
  function KdjSignals(latest: Bar, prev: Prev): (s: seq<string>)
    ensures |s| <= 1
    ensures KdjGolden in s <==> CrossUp(latest.k, latest.d, prev.k, prev.d)
    ensures KdjDeath in s <==> CrossDown(latest.k, latest.d, prev.k, prev.d)
    ensures forall x | x in s :: SignalGroup(x) == 1
    ensures latest.k.NaN? || latest.d.NaN? || prev.k.NaN? || prev.d.NaN? ==> s == []
  {
    if CrossUp(latest.k, latest.d, prev.k, prev.d) then [KdjGolden]
    else if CrossDown(latest.k, latest.d, prev.k, prev.d) then [KdjDeath]
    else []
  }

  /** The RSI signal, if any; none when the RSI is NaN. */
  function RsiSignals(latest: Bar): (s: seq<string>)
    ensures |s| <= 1
    ensures RsiOverbought in s <==> Gt(latest.rsi, Num(70.0))
    ensures RsiOversold in s <==> Lt(latest.rsi, Num(30.0))
    ensures forall x | x in s :: SignalGroup(x) == 2
    ensures latest.rsi.NaN? ==> s == []
  {
    if Gt(latest.rsi, Num(70.0)) then [RsiOverbought] else if Lt(latest.rsi, Num(30.0)) then [RsiOversold] else []
  }

  /**
   * The signal list: at most one MACD, one KDJ and one RSI signal, in that
   * order. A golden and a death cross of the same pair never fire together,
   * and neither do overbought and oversold.
   */
  function Signals(latest: Bar, prev: Prev): (s: seq<string>)
    ensures |s| <= 3
    ensures forall i, j | 0 <= i < j < |s| :: SignalGroup(s[i]) < SignalGroup(s[j])
    ensures !(MacdGolden in s && MacdDeath in s) && !(KdjGolden in s && KdjDeath in s)
    ensures !(RsiOverbought in s && RsiOversold in s)
  {
    var m := MacdSignals(latest, prev);
    var k := KdjSignals(latest, prev);
    var r := RsiSignals(latest);
    assert forall x | x in m + k + r :: x in m || x in k || x in r;
    m + k + r
  }

  /** With no previous row (the bar compared with itself) no cross fires. */
  lemma NoCrossWithoutHistory(b: Bar)
    ensures Signals(b, AsPrev(b)) == RsiSignals(b)
  {
  }

  /** The snapshot of the latest row. */
  datatype Snapshot = Snapshot(date: string, close: Cell, changePercent: Option<real>, ma5: Cell, ma20: Cell, ma60: Cell,
                               rsi: Cell, kdj: string, macd: string, trend: string, signals: seq<string>)

  const EmptyFrameError := "数据为空"
  const SnapshotError := "提取指标快照失败"

  /** The KDJ text: `K:{K:.1f} D:{D:.1f} J:{J:.1f}`. */
  function KdjText(b: Bar): string
  {
    "K:" + CellFixed1(b.k) + " D:" + CellFixed1(b.d) + " J:" + CellFixed1(b.j)
  }

  /** The MACD text: `DIF:{MACD:.2f} DEA:{MACD_signal:.2f} MACD:{MACD_hist:.2f}`. */
  function MacdText(b: Bar): string
  {
    "DIF:" + CellFixed2(b.macd) + " DEA:" + CellFixed2(b.macdSignal) + " MACD:" + CellFixed2(b.macdHist)
  }

  /** The percentage change from the previous close. */
  function ChangePercent(close: real, prevClose: real): real
    requires prevClose != 0.0
  {
    (close - prevClose) / prevClose * 100.0
  }

  /** The change against the previous close: `None` where Python gives NaN or an infinity (a NaN close, or a zero previous close). */
  function Change(close: Cell, prevClose: Cell): (c: Option<real>)
    ensures c.Some? <==> close.Num? && prevClose.Num? && prevClose.x != 0.0
  {
    if close.NaN? || prevClose.NaN? || prevClose.x == 0.0 then None else Some(ChangePercent(close.x, prevClose.x))
  }

  /**
   * `_get_latest_indicators`: an empty frame is an error; otherwise the last
   * row, compared with the one before it (or with itself in a one-row frame).
   * NaN cells raise nothing: they compare false, print as "nan" and carry
   * into the snapshot. A missing column or a non-numeric cell raises, and the
   * error is the prefixed exception text. The text of the last row's index
   * label (`dateText`) and the exception's text (`raised`) are inputs.
   */
  function LatestIndicators(f: Frame, dateText: string, raised: string): (r: Result<Snapshot>)
    ensures f.IsEmpty() ==> r == Err(EmptyFrameError)
    ensures !f.IsEmpty() ==>
      var n := |f.rows|;
      && (r.Err? <==> BarOf(f.rows[n - 1]).None? || (n > 1 && PrevOf(f.rows[n - 2]).None?))
      && (r.Err? ==> r.error == SnapshotError + ": " + raised)
    ensures r.Ok? ==> var latest := BarOf(f.rows[|f.rows| - 1]).value;
      && r.value.date == dateText && r.value.trend == Trend(latest)
      && r.value.close == latest.close && r.value.ma5 == latest.ma5 && r.value.ma20 == latest.ma20
      && r.value.ma60 == latest.ma60 && r.value.rsi == latest.rsi
      && r.value.kdj == KdjText(latest) && r.value.macd == MacdText(latest)
    ensures r.Ok? && |f.rows| > 1 ==>
      var latest := BarOf(f.rows[|f.rows| - 1]).value;
      var prev := PrevOf(f.rows[|f.rows| - 2]).value;
      && r.value.signals == Signals(latest, prev)
      && r.value.changePercent == Change(latest.close, prev.close)
    ensures r.Ok? && |f.rows| == 1 ==> r.value.changePercent == Some(0.0) && r.value.signals == RsiSignals(BarOf(f.rows[0]).value)
  {
    if f.IsEmpty() then Err(EmptyFrameError)
    else
      var n := |f.rows|;
      var latest := BarOf(f.rows[n - 1]);
      if latest.None? then Err(SnapshotError + ": " + raised)
      else
        var l := latest.value;
        var prev := if n > 1 then PrevOf(f.rows[n - 2]) else Some(AsPrev(l));
        if prev.None? then Err(SnapshotError + ": " + raised)
        else
          var p := prev.value;
          var change := if n == 1 then Some(0.0) else Change(l.close, p.close);
          NoCrossWithoutHistory(l);
          Ok(Snapshot(dateText, l.close, change, l.ma5, l.ma20, l.ma60, l.rsi, KdjText(l), MacdText(l), Trend(l), Signals(l, p)))
  }

  /**
   * A history too short for MA60 still gives a snapshot: with the average NaN
   * in the last row, the trend is sideways and MA60 carries the NaN.
   */
  lemma ShortHistorySnapshot(f: Frame, dateText: string, raised: string)
    requires !f.IsEmpty()
    requires BarOf(f.rows[|f.rows| - 1]).Some? && BarOf(f.rows[|f.rows| - 1]).value.ma60.NaN?
    requires |f.rows| > 1 ==> PrevOf(f.rows[|f.rows| - 2]).Some?
    ensures var r := LatestIndicators(f, dateText, raised);
      r.Ok? && r.value.trend == Sideways && r.value.ma60 == NaN
  {
    var r := LatestIndicators(f, dateText, raised);
    assert r.Ok?;
    assert r.value.trend == Trend(BarOf(f.rows[|f.rows| - 1]).value);
  }

  /** The snapshot as the indicators dictionary, NaN as the model's missing number. */
  function SnapshotDict(s: Snapshot): (d: Dict)
    ensures d.Keys == {"date", "close", "change_percent", "ma5", "ma20", "ma60", "rsi", "kdj", "macd", "trend", "signals"}
    ensures d["date"] == VStr(s.date) && d["kdj"] == VStr(s.kdj) && d["macd"] == VStr(s.macd) && d["trend"] == VStr(s.trend)
    ensures d["close"] == CellValue(s.close) && d["rsi"] == CellValue(s.rsi)
    ensures d["ma5"] == CellValue(s.ma5) && d["ma20"] == CellValue(s.ma20) && d["ma60"] == CellValue(s.ma60)
    ensures d["signals"].VList? && |d["signals"].items| == |s.signals|
      && forall i | 0 <= i < |s.signals| :: d["signals"].items[i] == VStr(s.signals[i])
  {
    map["date" := VStr(s.date), "close" := CellValue(s.close),
        "change_percent" := (if s.changePercent.Some? then VFloat(s.changePercent.value) else VNone),
        "ma5" := CellValue(s.ma5), "ma20" := CellValue(s.ma20), "ma60" := CellValue(s.ma60), "rsi" := CellValue(s.rsi),
        "kdj" := VStr(s.kdj), "macd" := VStr(s.macd),
        "trend" := VStr(s.trend), "signals" := VList(seq(|s.signals|, i requires 0 <= i < |s.signals| => VStr(s.signals[i])))]
  }

  /** The adapter's snapshot step, as `ComposeBundle` takes it. */
  function AdapterSnapshot(f: Frame, dateText: string, raised: string): Result<Dict>
  {
    match LatestIndicators(f, dateText, raised)
    case Ok(s) => Ok(SnapshotDict(s))
    case Err(e) => Err(e)
  }

  /**
   * The adapter's bundle: a history with fewer than 30 rows keeps the raw
   * rows and reports the shortage; a fetched history of at least 30 rows whose
   * computed frame is empty reports the empty frame.
   */
  lemma AdapterBundleGuards(info: Dict, raw: Fetched, compute: Frame -> Fetched, dateText: string, raised: string)
    ensures var b := ComposeBundle(info, raw, f => CalculateIndicators(f, compute), f => AdapterSnapshot(f, dateText, raised));
      && (raw.Table? && |raw.frame.rows| < MinRows ==>
            b.stockData == Some(raw.frame) && b.indicators == Some(ErrorDict(TooFewRowsError)))
      && (raw.Table? && |raw.frame.rows| >= MinRows && compute(raw.frame).Table? && compute(raw.frame).frame.IsEmpty() ==>
            b.stockData == Some(compute(raw.frame).frame) && b.indicators == Some(ErrorDict(EmptyFrameError)))
  {
  }
}
