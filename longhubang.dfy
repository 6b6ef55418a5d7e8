/**
 * Dragon-tiger-list (龙虎榜) scoring. Each listed stock comes with the
 * records of the trading seats that bought or sold it; the stock is scored
 * on five dimensions (capital quality 0-30, net inflow 0-25, sell pressure
 * 0-20, institution resonance 0-15, bonus 0-10) and the stocks are ranked by
 * the total.
 *
 * A record is a dict; every field is read under its Chinese key or, when
 * that is falsy, its pinyin key. Amounts are floats, modelled as exact
 * reals; a name or branch that is not a string is read as empty text.
 */
module Longhubang {
  import opened Wrappers
  import opened Strings
  import opened Values
  import opened Numbers
  import opened Lists
  import Sorting

  type Record = Dict

  // ----- The scorer's keyword lists -----

  /** Top hot-money traders and branches. */
  function TopTraders(): seq<string>
  {
    ["赵老哥", "章盟主", "92科比", "瑞鹤仙", "小鳄鱼", "养家心法", "欢乐海岸", "古北路", "成都系",
     "佛山系", "方新侠", "乔帮主", "淮海路", "东方财富", "国信深圳", "华泰深圳", "中信杭州", "招商深圳"]
  }

  /** Well-known traders of the second tier. */
  function FamousTraders(): seq<string>
  {
    ["深股通", "沪股通", "北向资金", "中金公司", "中信证券", "国泰君安", "海通证券", "广发证券", "华泰证券", "招商证券"]
  }

  /** Words that mark an institutional seat. */
  function InstitutionKeywords(): seq<string>
  {
    ["机构专用", "机构", "基金", "保险", "社保", "QFII", "RQFII", "券商", "信托"]
  }

  /** Concepts that earn the hot-concept bonus. */
  function HotKeywords(): seq<string>
  {
    ["人工智能", "AI", "ChatGPT", "算力", "新能源", "芯片", "半导体", "军工", "医药", "消费",
     "5G", "新材料", "量子", "光伏", "储能", "锂电池", "汽车", "游戏", "传媒", "元宇宙"]
  }

  // ----- Reading a record -----

  /** `record.get(zh, default) or record.get(py, default)` */
  function Field(r: Record, zh: string, py: string, default: Value): Value
  {
    Or(Get(r, zh, default), Get(r, py, default))
  }

  /** `float(v) if v else 0`, where a failed conversion also counts as 0. */
  function Amount(v: Value): real
  {
    if !Truthy(v) then 0.0 else ToFloat(v).GetOr(0.0)
  }

  /** The amount the seat bought. */
  function Buy(r: Record): real { Amount(Field(r, "买入金额", "mrje", VInt(0))) }

  /** The amount the seat sold. */
  function Sell(r: Record): real { Amount(Field(r, "卖出金额", "mcje", VInt(0))) }

  /** The seat's net inflow. */
  function Net(r: Record): real { Amount(Field(r, "净流入金额", "jlrje", VInt(0))) }

  /** The trader's name. */
  function TraderName(r: Record): Value { Field(r, "游资名称", "yzmc", VStr("")) }

  /** The branch (营业部) the seat trades through. */
  function BranchCell(r: Record): Value { Field(r, "营业部", "yyb", VStr("")) }

  /**
   * Python `k in v` for a name or branch cell: a substring of a string, an
   * element of a list, a key of a dict. Any other value makes Python raise
   * `TypeError`; the model reads it as no match.
   */
  predicate Holds(v: Value, k: string)
  {
    match v
    case VStr(s) => Contains(s, k)
    case VList(items) => VStr(k) in items
    case VDict(entries) => k in entries
    case _ => false
  }

  /** Some keyword occurs in `text`. */
  predicate Mentions(keys: seq<string>, text: string)
  {
    exists i | 0 <= i < |keys| :: Contains(text, keys[i])
  }

  /** `any(k in name or k in branch for k in keys)` */
  predicate Listed(keys: seq<string>, r: Record)
  {
    exists i | 0 <= i < |keys| :: Holds(TraderName(r), keys[i]) || Holds(BranchCell(r), keys[i])
  }

  predicate IsTop(r: Record) { Listed(TopTraders(), r) }

  /** Famous but not top: the second tier only counts what the first did not. */
  predicate FamousOnly(r: Record) { !IsTop(r) && Listed(FamousTraders(), r) }

  predicate IsInstitution(r: Record) { Listed(InstitutionKeywords(), r) }

  /** A seat that bought a positive amount. */
  predicate Positive(r: Record) { Buy(r) > 0.0 }

  predicate InstitutionBuyer(r: Record) { Positive(r) && IsInstitution(r) }

  predicate TraderBuyer(r: Record) { Positive(r) && !IsInstitution(r) }

  predicate TopBuyer(r: Record) { Positive(r) && IsTop(r) }

  /** Python's `min(a, b)` on floats. */
  function Min(a: real, b: real): real { if b < a then b else a }

  /** Python's `max(a, b)` on floats. */
  function Max(a: real, b: real): real { if b > a then b else a }

  /** How many elements satisfy `p`. */
  function Count<T>(xs: seq<T>, p: T -> bool): (n: nat)
    ensures n <= |xs|
  {
    if |xs| == 0 then 0 else Count(xs[..|xs| - 1], p) + (if p(xs[|xs| - 1]) then 1 else 0)
  }

  /** `f` summed left to right. */
  function Sum<T>(xs: seq<T>, f: T -> real): real
  {
    if |xs| == 0 then 0.0 else Sum(xs[..|xs| - 1], f) + f(xs[|xs| - 1])
  }

  /** The records with a positive buy amount, in order. */
  function Buyers(rs: seq<Record>): (bs: seq<Record>)
    ensures |bs| <= |rs|
    ensures forall k | 0 <= k < |bs| :: Positive(bs[k])
  {
    if |rs| == 0 then []
    else Buyers(rs[..|rs| - 1]) + (if Positive(rs[|rs| - 1]) then [rs[|rs| - 1]] else [])
  }

  /** Some record has a positive buy amount exactly when there are buyers. */
  lemma {:induction false} NoBuyers(rs: seq<Record>)
    ensures Buyers(rs) == [] <==> forall k | 0 <= k < |rs| :: !Positive(rs[k])
  {
    if |rs| > 0 {
      var init, last := rs[..|rs| - 1], rs[|rs| - 1];
      NoBuyers(init);
      assert Buyers(rs) == Buyers(init) + (if Positive(last) then [last] else []);
      if forall k | 0 <= k < |rs| :: !Positive(rs[k]) {
        forall k | 0 <= k < |init| ensures !Positive(init[k]) {
          assert init[k] == rs[k];
        }
      }
      if Buyers(rs) == [] {
        forall k | 0 <= k < |rs| ensures !Positive(rs[k]) {
          if k < |init| {
            assert rs[k] == init[k];
          }
        }
      }
    }
  }

  /** The buyers are counted the same way over the records and over the buyer list. */
  lemma {:induction false} BuyersCount(rs: seq<Record>)
    ensures |Buyers(rs)| == Count(rs, Positive)
  {
    if |rs| > 0 {
      BuyersCount(rs[..|rs| - 1]);
    }
  }

  // ----- 1. Capital quality (0-30) -----

  /** What one buyer adds: 10 for a top trader, else 5 for a famous one, else 1.5. */
  function Weight(b: Record): real
  {
    if IsTop(b) then 10.0 else if FamousOnly(b) then 5.0 else 1.5
  }

  /** Capital quality: top, famous and ordinary buyers weighted, capped at 30. */
  function Quality(rs: seq<Record>): real
  {
    var bs := Buyers(rs);
    if bs == [] then 0.0
    else
      var top := Count(bs, IsTop);
      var famous := Count(bs, FamousOnly);
      Min(10.0 * top as real + 5.0 * famous as real + (|bs| - top - famous) as real * 1.5, 30.0)
  }

  /** Every buyer is top, famous or ordinary, never two of them. */
  lemma {:induction false} TiersWithin(bs: seq<Record>)
    ensures Count(bs, IsTop) + Count(bs, FamousOnly) <= |bs|
  {
    if |bs| > 0 {
      TiersWithin(bs[..|bs| - 1]);
    }
  }

  /** Counting the tiers gives the same total as adding up each buyer's weight. */
  lemma {:induction false} WeightsByTier(bs: seq<Record>)
    ensures var top := Count(bs, IsTop); var famous := Count(bs, FamousOnly);
      Sum(bs, Weight) == 10.0 * top as real + 5.0 * famous as real + (|bs| - top - famous) as real * 1.5
  {
    if |bs| > 0 {
      WeightsByTier(bs[..|bs| - 1]);
    }
  }

  /**
   * Capital quality lies in [0, 30]; it is 0 exactly when no seat bought a
   * positive amount, and otherwise it is the buyers' weights added up, capped at 30.
   */
  lemma QualitySpec(rs: seq<Record>)
    ensures 0.0 <= Quality(rs) <= 30.0
    ensures Quality(rs) == 0.0 <==> forall k | 0 <= k < |rs| :: !Positive(rs[k])
    ensures Buyers(rs) != [] ==> Quality(rs) == Min(Sum(Buyers(rs), Weight), 30.0)
    ensures Count(Buyers(rs), IsTop) + Count(Buyers(rs), FamousOnly) <= |Buyers(rs)|
  {
    var bs := Buyers(rs);
    NoBuyers(rs);
    TiersWithin(bs);
    WeightsByTier(bs);
  }

  /** Whether one of `keys` occurs in the record's name or branch, searched in order until the first hit. */
  method MatchSeat(keys: seq<string>, r: Record) returns (found: bool)
    ensures found == Listed(keys, r)
  {
    var name, branch := TraderName(r), BranchCell(r);
    found := false;
    for k := 0 to |keys|
      invariant !found
      invariant forall m | 0 <= m < k :: !Holds(name, keys[m]) && !Holds(branch, keys[m])
    {
      if Holds(name, keys[k]) || Holds(branch, keys[k]) {
        found := true;
        break;
      }
    }
  }

  /** The buyer list of `_calculate_capital_quality`: the records with a positive buy amount. */
  method CollectBuyers(rs: seq<Record>) returns (buyers: seq<Record>)
    ensures buyers == Buyers(rs)
  {
    buyers := [];
    for i := 0 to |rs|
      invariant buyers == Buyers(rs[..i])
    {
      assert rs[..i + 1][..i] == rs[..i];
      var amount := Buy(rs[i]);
      if amount > 0.0 {
        buyers := buyers + [rs[i]];
      }
    }
    assert rs[..|rs|] == rs;
  }

  /** The top-trader pass: each buyer matching a top trader counts once and adds 10. */
  method TopTier(buyers: seq<Record>) returns (top: nat, added: real)
    ensures top == Count(buyers, IsTop) && added == 10.0 * top as real
  {
    top, added := 0, 0.0;
    for j := 0 to |buyers|
      invariant top == Count(buyers[..j], IsTop) && added == 10.0 * top as real
    {
      assert buyers[..j + 1][..j] == buyers[..j];
      var hit := MatchSeat(TopTraders(), buyers[j]);
      if hit {
        top := top + 1;
        added := added + 10.0;
      }
    }
    assert buyers[..|buyers|] == buyers;
  }

  /** The famous-trader pass: each buyer that is not top but matches a famous trader counts once and adds 5. */
  method FamousTier(buyers: seq<Record>) returns (famous: nat, added: real)
    ensures famous == Count(buyers, FamousOnly) && added == 5.0 * famous as real
  {
    famous, added := 0, 0.0;
    for j := 0 to |buyers|
      invariant famous == Count(buyers[..j], FamousOnly) && added == 5.0 * famous as real
    {
      assert buyers[..j + 1][..j] == buyers[..j];
      var isTop := IsTop(buyers[j]);
      if !isTop {
        var hit := MatchSeat(FamousTraders(), buyers[j]);
        if hit {
          famous := famous + 1;
          added := added + 5.0;
        }
      }
    }
    assert buyers[..|buyers|] == buyers;
  }

  /** `_calculate_capital_quality` */
  method CalculateCapitalQuality(rs: seq<Record>) returns (score: real)
    ensures score == Quality(rs)
  {
    var buyers := CollectBuyers(rs);
    if buyers == [] {
      return 0.0;
    }
    score := 0.0;
    var top, topScore := TopTier(buyers);
    score := score + topScore;
    var famous, famousScore := FamousTier(buyers);
    score := score + famousScore;
    var ordinary := |buyers| - top - famous;
    score := score + ordinary as real * 1.5;
    score := Min(score, 30.0);
  }

  // ----- 2. Net inflow (0-25) -----

  /**
   * The net-inflow score of a total in yuan: piecewise linear in 万 (10 000
   * yuan), 0-10 below 1000万, 10-18 up to 5000万, 18-22 up to 1亿, then 22-25.
   */
  function InflowScore(total: real): real
  {
    if total <= 0.0 then 0.0
    else
      var wan := total / 10000.0;
      var score :=
        if wan < 1000.0 then wan / 1000.0 * 10.0
        else if wan < 5000.0 then 10.0 + (wan - 1000.0) / 4000.0 * 8.0
        else if wan < 10000.0 then 18.0 + (wan - 5000.0) / 5000.0 * 4.0
        else 22.0 + Min((wan - 10000.0) / 10000.0, 1.0) * 3.0;
      Min(score, 25.0)
  }

  /** The score is 0 for no inflow, positive for any inflow, at most 25, and 25 from 2亿 on. */
  lemma InflowBounds(total: real)
    ensures 0.0 <= InflowScore(total) <= 25.0
    ensures InflowScore(total) == 0.0 <==> total <= 0.0
    ensures total >= 200000000.0 ==> InflowScore(total) == 25.0
  {
  }

  /** The segments meet: 10 at 1000万, 18 at 5000万, 22 at 1亿. */
  lemma InflowLandmarks()
    ensures InflowScore(10000000.0) == 10.0
    ensures InflowScore(50000000.0) == 18.0
    ensures InflowScore(100000000.0) == 22.0
  {
  }

  /** More inflow never scores less. */
  lemma InflowMonotone(x: real, y: real)
    requires x <= y
    ensures InflowScore(x) <= InflowScore(y)
  {
  }

  /** `_calculate_net_inflow_score` */
  method CalculateNetInflowScore(rs: seq<Record>) returns (score: real)
    ensures score == InflowScore(Sum(rs, Net))
  {
    var total := 0.0;
    for i := 0 to |rs|
      invariant total == Sum(rs[..i], Net)
    {
      assert rs[..i + 1][..i] == rs[..i];
      total := total + Net(rs[i]);
    }
    assert rs[..|rs|] == rs;
    if total <= 0.0 {
      return 0.0;
    }
    var wan := total / 10000.0;
    if wan < 1000.0 {
      score := wan / 1000.0 * 10.0;
    } else if wan < 5000.0 {
      score := 10.0 + (wan - 1000.0) / 4000.0 * 8.0;
    } else if wan < 10000.0 {
      score := 18.0 + (wan - 5000.0) / 5000.0 * 4.0;
    } else {
      score := 22.0 + Min((wan - 10000.0) / 10000.0, 1.0) * 3.0;
    }
    score := Min(score, 25.0);
  }

  // ----- 3. Sell pressure (0-20) -----

  /** The score of a sell-to-buy ratio: 20 below 10%, falling linearly to 0 at 100%. */
  function RatioScore(ratio: real): real
  {
    var score :=
      if ratio < 0.1 then 20.0
      else if ratio < 0.3 then 20.0 - (ratio - 0.1) / 0.2 * 5.0
      else if ratio < 0.5 then 15.0 - (ratio - 0.3) / 0.2 * 5.0
      else if ratio < 0.8 then 10.0 - (ratio - 0.5) / 0.3 * 5.0
      else 5.0 - Min(ratio - 0.8, 0.2) / 0.2 * 5.0;
    Max(0.0, Min(score, 20.0))
  }

  /** Sell pressure from the total bought and sold; a negative total buy counts as ratio 1. */
  function PressureScore(buy: real, sell: real): real
  {
    if buy == 0.0 then 0.0 else RatioScore(if buy > 0.0 then sell / buy else 1.0)
  }

  /**
   * Sell pressure lies in [0, 20]; it is 0 when nothing was bought (or the
   * total is negative), 20 when less than a tenth of the buying was sold, and
   * 0 once the selling reaches the buying.
   */
  lemma PressureBounds(buy: real, sell: real)
    ensures 0.0 <= PressureScore(buy, sell) <= 20.0
    ensures buy <= 0.0 ==> PressureScore(buy, sell) == 0.0
    ensures buy > 0.0 && sell / buy < 0.1 ==> PressureScore(buy, sell) == 20.0
    ensures buy > 0.0 && sell >= buy ==> PressureScore(buy, sell) == 0.0
  {
    if buy > 0.0 && sell >= buy {
      assert sell / buy >= 1.0;
    }
  }

  /** A larger sell ratio never scores more. */
  lemma RatioMonotone(a: real, b: real)
    requires a <= b
    ensures RatioScore(a) >= RatioScore(b)
  {
  }

  /** The buy and sell totals over the records, each failed conversion counting as 0. */
  method Totals(rs: seq<Record>) returns (totalBuy: real, totalSell: real)
    ensures totalBuy == Sum(rs, Buy) && totalSell == Sum(rs, Sell)
  {
    totalBuy, totalSell := 0.0, 0.0;
    for i := 0 to |rs|
      invariant totalBuy == Sum(rs[..i], Buy) && totalSell == Sum(rs[..i], Sell)
    {
      assert rs[..i + 1][..i] == rs[..i];
      totalBuy := totalBuy + Buy(rs[i]);
      totalSell := totalSell + Sell(rs[i]);
    }
    assert rs[..|rs|] == rs;
  }

  /** `_calculate_sell_pressure_score` */
  method CalculateSellPressureScore(rs: seq<Record>) returns (score: real)
    ensures score == PressureScore(Sum(rs, Buy), Sum(rs, Sell))
  {
    var totalBuy, totalSell := Totals(rs);
    if totalBuy == 0.0 {
      return 0.0;
    }
    var ratio := if totalBuy > 0.0 then totalSell / totalBuy else 1.0;
    if ratio < 0.1 {
      score := 20.0;
    } else if ratio < 0.3 {
      score := 20.0 - (ratio - 0.1) / 0.2 * 5.0;
    } else if ratio < 0.5 {
      score := 15.0 - (ratio - 0.3) / 0.2 * 5.0;
    } else if ratio < 0.8 {
      score := 10.0 - (ratio - 0.5) / 0.3 * 5.0;
    } else {
      score := 5.0 - Min(ratio - 0.8, 0.2) / 0.2 * 5.0;
    }
    score := Max(0.0, Min(score, 20.0));
  }

  // ----- 4. Institution resonance (0-15) -----

  /** Institution resonance from the institutional and the other buying seats. */
  function Resonance(rs: seq<Record>): real
  {
    var institutions := Count(rs, InstitutionBuyer);
    var traders := Count(rs, TraderBuyer);
    var score :=
      if institutions > 0 && traders > 0 then 15.0
      else if institutions > 0 then Min(8.0 + institutions as real * 2.0, 12.0)
      else if traders > 0 then Min(5.0 + traders as real, 10.0)
      else 0.0;
    Min(score, 15.0)
  }

  /** Every buying seat is either institutional or not. */
  lemma {:induction false} BuyersSplit(rs: seq<Record>)
    ensures Count(rs, InstitutionBuyer) + Count(rs, TraderBuyer) == |Buyers(rs)|
  {
    if |rs| > 0 {
      BuyersSplit(rs[..|rs| - 1]);
    }
  }

  /**
   * 15 when institutions and other traders both buy, min(8 + 2n, 12) for n
   * institutions alone, min(5 + n, 10) for n other traders alone, 0 with no
   * buyer; the two kinds together are all the buyers.
   */
  lemma ResonanceCases(rs: seq<Record>)
    ensures var n := Count(rs, InstitutionBuyer); var t := Count(rs, TraderBuyer);
      && n + t == |Buyers(rs)|
      && (n > 0 && t > 0 ==> Resonance(rs) == 15.0)
      && (n > 0 && t == 0 ==> Resonance(rs) == Min(8.0 + 2.0 * n as real, 12.0))
      && (n == 0 && t > 0 ==> Resonance(rs) == Min(5.0 + t as real, 10.0))
      && (Buyers(rs) == [] ==> Resonance(rs) == 0.0)
      && 0.0 <= Resonance(rs) <= 15.0
  {
    BuyersSplit(rs);
  }

  /** `_calculate_institution_score` */
  method CalculateInstitutionScore(rs: seq<Record>) returns (score: real)
    ensures score == Resonance(rs)
  {
    var hasInstitution, hasTrader := false, false;
    var institutions, traders := 0, 0;
    for i := 0 to |rs|
      invariant institutions == Count(rs[..i], InstitutionBuyer) && hasInstitution == (institutions > 0)
      invariant traders == Count(rs[..i], TraderBuyer) && hasTrader == (traders > 0)
    {
      assert rs[..i + 1][..i] == rs[..i];
      var amount := Buy(rs[i]);
      if amount <= 0.0 {
        continue;
      }
      var institutional := IsInstitution(rs[i]);
      if institutional {
        hasInstitution := true;
        institutions := institutions + 1;
      } else {
        hasTrader := true;
        traders := traders + 1;
      }
    }
    assert rs[..|rs|] == rs;
    if hasInstitution && hasTrader {
      score := 15.0;
    } else if hasInstitution {
      score := Min(8.0 + institutions as real * 2.0, 12.0);
    } else if hasTrader {
      score := Min(5.0 + traders as real, 10.0);
    } else {
      score := 0.0;
    }
    score := Min(score, 15.0);
  }

  // ----- 5. Bonus (0-10) -----

  /** Concentration: the fewer seats, the more (3, 2.5, 2, 1.5, then 1). */
  function SeatBonus(seats: nat): real
  {
    if seats == 1 then 3.0 else if seats == 2 then 2.5 else if seats == 3 then 2.0
    else if seats <= 5 then 1.5 else 1.0
  }

  /** A record's concepts: its comma-separated concept text, each part stripped. */
  function ConceptsOf(r: Record): seq<string>
  {
    var v := Field(r, "概念", "gl", VStr(""));
    if Truthy(v) then Map(Split(Str(v), ','), Strip) else []
  }

  /** All records' concepts, in order. */
  function Concepts(rs: seq<Record>): seq<string>
  {
    if |rs| == 0 then [] else Concepts(rs[..|rs| - 1]) + ConceptsOf(rs[|rs| - 1])
  }

  predicate IsHot(concept: string) { Mentions(HotKeywords(), concept) }

  /** Listed again: 2 for three or more records, 1 for two. */
  function StreakBonus(seats: nat): real
  {
    if seats >= 3 then 2.0 else if seats == 2 then 1.0 else 0.0
  }

  /** Buy-to-sell ratio bonus; `buy / (sell + 1)` fails when the sell total is -1. */
  function RatioBonus(buy: real, sell: real): Result<real>
  {
    if buy <= 0.0 then Ok(0.0)
    else if sell + 1.0 == 0.0 then Err("float division by zero")
    else
      var ratio := buy / (sell + 1.0);
      Ok(if ratio >= 10.0 then 2.0 else if ratio >= 5.0 then 1.5 else if ratio >= 3.0 then 1.0 else 0.0)
  }

  /** Concentration, hot concepts (0.3 each, at most 3) and streak. */
  function BaseBonus(rs: seq<Record>): real
  {
    SeatBonus(|rs|) + Min(0.3 * Count(Concepts(rs), IsHot) as real, 3.0) + StreakBonus(|rs|)
  }

  /** The ratio points added to the base, capped at 10; a failed ratio fails the bonus. */
  function WithRatio(base: real, ratio: Result<real>): Result<real>
  {
    match ratio
    case Err(e) => Err(e)
    case Ok(points) => Ok(Min(base + points, 10.0))
  }

  /** The bonus: the base points and the buy-to-sell ratio points, capped at 10. */
  function Bonus(rs: seq<Record>): Result<real>
  {
    if rs == [] then Ok(0.0) else WithRatio(BaseBonus(rs), RatioBonus(Sum(rs, Buy), Sum(rs, Sell)))
  }

  /**
   * The bonus fails exactly when something was bought and the sell total is
   * -1; otherwise it lies in [0, 10], and is at least 1 for any record.
   */
  lemma BonusSpec(rs: seq<Record>)
    ensures Bonus(rs).Err? <==> rs != [] && Sum(rs, Buy) > 0.0 && Sum(rs, Sell) == -1.0
    ensures Bonus(rs).Ok? ==> 0.0 <= Bonus(rs).value <= 10.0
    ensures Bonus(rs).Ok? && rs != [] ==> Bonus(rs).value >= 1.0
  {
  }

  /** The concept list of `_calculate_bonus_score`. */
  method CollectConcepts(rs: seq<Record>) returns (concepts: seq<string>)
    ensures concepts == Concepts(rs)
  {
    concepts := [];
    for i := 0 to |rs|
      invariant concepts == Concepts(rs[..i])
    {
      assert rs[..i + 1][..i] == rs[..i];
      var v := Field(rs[i], "概念", "gl", VStr(""));
      if Truthy(v) {
        concepts := concepts + Map(Split(Str(v), ','), Strip);
      }
    }
    assert rs[..|rs|] == rs;
  }

  /** The hot-concept points before the cap: 0.3 for each concept naming a hot keyword. */
  method HotPoints(concepts: seq<string>) returns (hot: real)
    ensures hot == 0.3 * Count(concepts, IsHot) as real
  {
    hot := 0.0;
    ghost var hits := 0;
    for j := 0 to |concepts|
      invariant hits == Count(concepts[..j], IsHot) && hot == 0.3 * hits as real
    {
      assert concepts[..j + 1][..j] == concepts[..j];
      if IsHot(concepts[j]) {
        hits := hits + 1;
        hot := hot + 0.3;
      }
    }
    assert concepts[..|concepts|] == concepts;
  }

  /** Step 4 of `_calculate_bonus_score`: the points for a buy total well above the sell total. */
  method RatioPoints(totalBuy: real, totalSell: real) returns (points: Result<real>)
    ensures points == RatioBonus(totalBuy, totalSell)
  {
    if totalBuy > 0.0 {
      if totalSell + 1.0 == 0.0 {
        return Err("float division by zero");
      }
      var ratio := totalBuy / (totalSell + 1.0);
      if ratio >= 10.0 {
        return Ok(2.0);
      } else if ratio >= 5.0 {
        return Ok(1.5);
      } else if ratio >= 3.0 {
        return Ok(1.0);
      }
    }
    return Ok(0.0);
  }

  /** Steps 1-3 of `_calculate_bonus_score`: concentration, hot concepts and streak. */
  method BasePoints(rs: seq<Record>) returns (bonus: real)
    ensures bonus == BaseBonus(rs)
  {
    var seats := |rs|;
    if seats == 1 {
      bonus := 3.0;
    } else if seats == 2 {
      bonus := 2.5;
    } else if seats == 3 {
      bonus := 2.0;
    } else if seats <= 5 {
      bonus := 1.5;
    } else {
      bonus := 1.0;
    }
    var concepts := CollectConcepts(rs);
    var hot := HotPoints(concepts);
    bonus := bonus + Min(hot, 3.0);
    if |rs| >= 3 {
      bonus := bonus + 2.0;
    } else if |rs| == 2 {
      bonus := bonus + 1.0;
    }
  }

  /** `_calculate_bonus_score` */
  method CalculateBonusScore(rs: seq<Record>) returns (score: Result<real>)
    ensures score == Bonus(rs)
  {
    if rs == [] {
      return Ok(0.0);
    }
    var bonus := BasePoints(rs);
    var totalBuy, totalSell := Totals(rs);
    var ratio := RatioPoints(totalBuy, totalSell);
    score := AddRatio(bonus, ratio);
  }

  /** The ratio points added to the bonus and the sum capped at 10, or the ratio's error. */
  method AddRatio(bonus: real, ratio: Result<real>) returns (score: Result<real>)
    ensures score == WithRatio(bonus, ratio)
  {
    if ratio.Err? {
      return Err(ratio.error);
    }
    var total := bonus + ratio.value;
    score := Ok(Min(total, 10.0));
  }

  // ----- The total -----

  /** The five scores added up, rounded to one decimal; 0 for no records. */
  function StockScore(rs: seq<Record>): Result<real>
  {
    if rs == [] then Ok(0.0)
    else
      match Bonus(rs)
      case Err(e) => Err(e)
      case Ok(bonus) =>
        Ok(RoundTenth(Quality(rs) + InflowScore(Sum(rs, Net)) + PressureScore(Sum(rs, Buy), Sum(rs, Sell)) + Resonance(rs) + bonus))
  }

  /** A tenth-rounded value of [0, 100] stays in [0, 100]. */
  lemma RoundTenthWithin(x: real)
    requires 0.0 <= x <= 100.0
    ensures 0.0 <= RoundTenth(x) <= 100.0
  {
    var f := (x * 10.0 + 0.5).Floor;
    assert f as real <= x * 10.0 + 0.5 < f as real + 1.0;
    assert 0 <= f <= 1000;
  }

  /**
   * No records score 0; otherwise the score fails only with the bonus, lies
   * in [0, 100] (30 + 25 + 20 + 15 + 10) and is within 0.05 of the five
   * scores' sum.
   */
  lemma StockScoreSpec(rs: seq<Record>)
    ensures rs == [] ==> StockScore(rs) == Ok(0.0)
    ensures StockScore(rs).Err? <==> Bonus(rs).Err?
    ensures StockScore(rs).Ok? ==> 0.0 <= StockScore(rs).value <= 100.0
    ensures rs != [] && Bonus(rs).Ok? ==>
      var sum := Quality(rs) + InflowScore(Sum(rs, Net)) + PressureScore(Sum(rs, Buy), Sum(rs, Sell)) + Resonance(rs) + Bonus(rs).value;
      sum - 0.05 <= StockScore(rs).value <= sum + 0.05
  {
    if rs != [] && Bonus(rs).Ok? {
      var quality, inflow, pressure := Quality(rs), InflowScore(Sum(rs, Net)), PressureScore(Sum(rs, Buy), Sum(rs, Sell));
      var resonance, bonus := Resonance(rs), Bonus(rs).value;
      assert 0.0 <= quality <= 30.0 by { QualitySpec(rs); }
      assert 0.0 <= inflow <= 25.0 by { InflowBounds(Sum(rs, Net)); }
      assert 0.0 <= pressure <= 20.0 by { PressureBounds(Sum(rs, Buy), Sum(rs, Sell)); }
      assert 0.0 <= resonance <= 15.0 by { ResonanceCases(rs); }
      assert 0.0 <= bonus <= 10.0 by { BonusSpec(rs); }
      var sum := quality + inflow + pressure + resonance + bonus;
      assert StockScore(rs) == Ok(RoundTenth(sum));
      RoundTenthWithin(sum);
    }
  }

  /** `calculate_stock_score` */
  method CalculateStockScore(rs: seq<Record>) returns (score: Result<real>)
    ensures score == StockScore(rs)
  {
    if rs == [] {
      return Ok(0.0);
    }
    var quality := CalculateCapitalQuality(rs);
    var inflow := CalculateNetInflowScore(rs);
    var pressure := CalculateSellPressureScore(rs);
    var resonance := CalculateInstitutionScore(rs);
    var bonus := CalculateBonusScore(rs);
    if bonus.Err? {
      return Err(bonus.error);
    }
    score := Ok(RoundTenth(quality + inflow + pressure + resonance + bonus.value));
  }

  /** `_count_top_youzi` */
  method CountTopYouzi(rs: seq<Record>) returns (count: nat)
    ensures count == Count(rs, TopBuyer)
  {
    count := 0;
    for i := 0 to |rs|
      invariant count == Count(rs[..i], TopBuyer)
    {
      assert rs[..i + 1][..i] == rs[..i];
      var amount := Buy(rs[i]);
      if amount <= 0.0 {
        continue;
      }
      var top := IsTop(rs[i]);
      if top {
        count := count + 1;
      }
    }
    assert rs[..|rs|] == rs;
  }

  /** The top traders counted over the records are the top tier of capital quality, so never more than the buyers. */
  lemma {:induction false} TopBuyersSpec(rs: seq<Record>)
    ensures Count(rs, TopBuyer) == Count(Buyers(rs), IsTop)
    ensures Count(rs, TopBuyer) <= |Buyers(rs)|
  {
    if |rs| > 0 {
      var init := rs[..|rs| - 1];
      TopBuyersSpec(init);
      var bs := Buyers(rs);
      if Positive(rs[|rs| - 1]) {
        assert bs == Buyers(init) + [rs[|rs| - 1]];
        assert bs[..|bs| - 1] == Buyers(init);
        assert bs[|bs| - 1] == rs[|rs| - 1];
      } else {
        assert bs == Buyers(init);
      }
    }
  }

  // ----- Ranking all listed stocks -----

  /** One stock of the grouping dict: its code, the name on its first record, its records in order. */
  datatype Entry = Entry(code: Value, name: Value, records: seq<Record>)

  /** `record.get("股票代码") or record.get("gpdm")` */
  function Code(r: Record): Value { Field(r, "股票代码", "gpdm", VNone) }

  /** `record.get("股票名称") or record.get("gpmc")` */
  function StockName(r: Record): Value { Field(r, "股票名称", "gpmc", VNone) }

  /** A value that can be a dict key: lists and dicts cannot. */
  predicate Hashable(v: Value) { !v.VList? && !v.VDict? }

  /** The `TypeError` a list or dict key raises. */
  function Unhashable(v: Value): string
  {
    "unhashable type: '" + (if v.VList? then "list" else "dict") + "'"
  }

  /** `code in stocks_dict`: the position of the entry with that code, or -1. */
  function Position(es: seq<Entry>, code: Value): (i: int)
    ensures -1 <= i < |es|
    ensures 0 <= i ==> es[i].code == code
    ensures i < 0 ==> forall k | 0 <= k < |es| :: es[k].code != code
  {
    if |es| == 0 then -1
    else if es[|es| - 1].code == code then |es| - 1
    else Position(es[..|es| - 1], code)
  }

  /** The record appended to its stock's entry, or a new entry opened for it. */
  function AddRecord(es: seq<Entry>, r: Record): seq<Entry>
  {
    var p := Position(es, Code(r));
    if 0 <= p then es[p := es[p].(records := es[p].records + [r])]
    else es + [Entry(Code(r), StockName(r), [r])]
  }

  /** The grouping dict, entries in insertion order; records without a code are skipped. */
  function Groups(data: seq<Record>): Result<seq<Entry>>
  {
    if |data| == 0 then Ok([])
    else
      match Groups(data[..|data| - 1])
      case Err(e) => Err(e)
      case Ok(es) =>
        var code := Code(data[|data| - 1]);
        if !Truthy(code) then Ok(es)
        else if !Hashable(code) then Err(Unhashable(code))
        else Ok(AddRecord(es, data[|data| - 1]))
  }

  /** The records carrying `code`, in order. */
  function WithCode(data: seq<Record>, code: Value): seq<Record>
  {
    if |data| == 0 then []
    else WithCode(data[..|data| - 1], code) + (if Code(data[|data| - 1]) == code then [data[|data| - 1]] else [])
  }

  /** Grouping fails exactly when some record's code is a non-empty list or dict. */
  lemma {:induction false} GroupsErr(data: seq<Record>)
    ensures Groups(data).Err? <==> exists k | 0 <= k < |data| :: Truthy(Code(data[k])) && !Hashable(Code(data[k]))
  {
    if |data| > 0 {
      var init := data[..|data| - 1];
      GroupsErr(init);
      assert forall k | 0 <= k < |init| :: init[k] == data[k];
    }
  }

  /** The shape of a grouping: distinct truthy codes, each entry holding exactly its code's records, first record first. */
  ghost predicate Grouping(data: seq<Record>, es: seq<Entry>)
  {
    && (forall i, j | 0 <= i < j < |es| :: es[i].code != es[j].code)
    && (forall i | 0 <= i < |es| ::
          Truthy(es[i].code) && es[i].records != [] && es[i].records == WithCode(data, es[i].code)
          && es[i].name == StockName(es[i].records[0]))
    && (forall k | 0 <= k < |data| && Truthy(Code(data[k])) :: 0 <= Position(es, Code(data[k])))
  }

  /** A code with records has a record carrying it. */
  lemma {:induction false} WithCodeFound(data: seq<Record>, code: Value)
    requires WithCode(data, code) != []
    ensures exists k | 0 <= k < |data| :: Code(data[k]) == code
  {
    var init := data[..|data| - 1];
    if Code(data[|data| - 1]) != code {
      WithCodeFound(init, code);
      var k :| 0 <= k < |init| && Code(init[k]) == code;
      assert data[k] == init[k];
    }
  }

  /** A record without a (truthy) code leaves the grouping as it is. */
  lemma SkipKeeps(data: seq<Record>, es: seq<Entry>)
    requires |data| > 0 && Grouping(data[..|data| - 1], es) && !Truthy(Code(data[|data| - 1]))
    ensures Grouping(data, es)
  {
    var init := data[..|data| - 1];
    forall i | 0 <= i < |es| ensures WithCode(data, es[i].code) == WithCode(init, es[i].code) {
    }
    forall k | 0 <= k < |data| && Truthy(Code(data[k])) ensures 0 <= Position(es, Code(data[k])) {
      assert data[k] == init[k];
    }
  }

  /** A record whose code has an entry is appended to it. */
  lemma AppendKeeps(data: seq<Record>, es: seq<Entry>)
    requires |data| > 0 && Grouping(data[..|data| - 1], es)
    requires Truthy(Code(data[|data| - 1])) && 0 <= Position(es, Code(data[|data| - 1]))
    ensures Grouping(data, AddRecord(es, data[|data| - 1]))
  {
    var init, r := data[..|data| - 1], data[|data| - 1];
    var p := Position(es, Code(r));
    var es' := AddRecord(es, r);
    assert es' == es[p := es[p].(records := es[p].records + [r])];
    forall i | 0 <= i < |es'|
      ensures Truthy(es'[i].code) && es'[i].records != [] && es'[i].records == WithCode(data, es'[i].code)
        && es'[i].name == StockName(es'[i].records[0])
    {
      if i == p {
        assert es'[i].records[0] == es[p].records[0];
      } else {
        assert es'[i] == es[i];
      }
    }
    forall k | 0 <= k < |data| && Truthy(Code(data[k])) ensures 0 <= Position(es', Code(data[k])) {
      if k < |init| {
        assert data[k] == init[k];
        var q := Position(es, Code(data[k]));
        assert es'[q].code == Code(data[k]);
      } else {
        assert es'[p].code == Code(data[k]);
      }
    }
  }

  /** A record with a new code opens a new entry at the end. */
  lemma OpenKeeps(data: seq<Record>, es: seq<Entry>)
    requires |data| > 0 && Grouping(data[..|data| - 1], es)
    requires Truthy(Code(data[|data| - 1])) && Position(es, Code(data[|data| - 1])) < 0
    ensures Grouping(data, AddRecord(es, data[|data| - 1]))
  {
    var init, r := data[..|data| - 1], data[|data| - 1];
    var es' := AddRecord(es, r);
    assert es' == es + [Entry(Code(r), StockName(r), [r])];
    if WithCode(init, Code(r)) != [] {
      WithCodeFound(init, Code(r));
      assert false;
    }
    forall i | 0 <= i < |es'|
      ensures Truthy(es'[i].code) && es'[i].records != [] && es'[i].records == WithCode(data, es'[i].code)
        && es'[i].name == StockName(es'[i].records[0])
    {
      if i < |es| {
        assert es'[i] == es[i];
      }
    }
    forall k | 0 <= k < |data| && Truthy(Code(data[k])) ensures 0 <= Position(es', Code(data[k])) {
      if k < |init| {
        assert data[k] == init[k];
        var q := Position(es, Code(data[k]));
        assert es'[q].code == Code(data[k]);
      } else {
        assert es'[|es|].code == Code(data[k]);
      }
    }
  }

  /**
   * The grouping has one entry per distinct truthy code, each holding all
   * the records with that code in their order and named after the first.
   */
  lemma {:induction false} GroupsSpec(data: seq<Record>)
    requires Groups(data).Ok?
    ensures Grouping(data, Groups(data).value)
  {
    if |data| > 0 {
      var init := data[..|data| - 1];
      GroupsSpec(init);
      var es := Groups(init).value;
      var code := Code(data[|data| - 1]);
      if !Truthy(code) {
        SkipKeeps(data, es);
      } else if 0 <= Position(es, code) {
        AppendKeeps(data, es);
      } else {
        OpenKeeps(data, es);
      }
    }
  }

  /** `stocks_dict` as `score_all_stocks` fills it. */
  method GroupRecords(data: seq<Record>) returns (groups: Result<seq<Entry>>)
    ensures groups == Groups(data)
  {
    var entries: seq<Entry> := [];
    for i := 0 to |data|
      invariant Groups(data[..i]) == Ok(entries)
    {
      assert data[..i + 1][..i] == data[..i];
      var code := Code(data[i]);
      if !Truthy(code) {
        continue;
      }
      if !Hashable(code) {
        GroupsErrStays(data, i + 1);
        return Err(Unhashable(code));
      }
      var p := Position(entries, code);
      if 0 <= p {
        entries := entries[p := entries[p].(records := entries[p].records + [data[i]])];
      } else {
        entries := entries + [Entry(code, StockName(data[i]), [data[i]])];
      }
    }
    assert data[..|data|] == data;
    return Ok(entries);
  }

  /** Once grouping a prefix fails, grouping the whole fails the same way. */
  lemma {:induction false} GroupsErrStays(data: seq<Record>, n: nat)
    requires n <= |data| && Groups(data[..n]).Err?
    ensures Groups(data) == Groups(data[..n])
    decreases |data| - n
  {
    if n < |data| {
      assert data[..n + 1][..n] == data[..n];
      GroupsErrStays(data, n + 1);
    } else {
      assert data[..n] == data;
    }
  }

  /** One row of the ranking table. */
  datatype Row = Row(
    rank: nat, display: string, name: Value, code: Value,
    score: real, quality: real, inflow: real, pressure: real, resonance: real, bonus: real,
    topTraders: nat, buyers: nat, institutional: string, netInflow: real)

  /** The row `score_all_stocks` appends for a stock, from its scores and counters; ranks come later. */
  function MakeRow(e: Entry, quality: real, inflow: real, pressure: real, resonance: real, bonus: real,
                   top: nat, buyers: nat, institutions: nat, net: real): Row
  {
    Row(0, "", e.name, e.code, RoundTenth(quality + inflow + pressure + resonance + bonus),
        RoundWhole(quality), RoundWhole(inflow), RoundWhole(pressure), RoundWhole(resonance), RoundWhole(bonus),
        top, buyers, if institutions > 0 then "✅" else "❌", RoundCents(net))
  }

  /** The row of one stock, before ranking; it fails where the bonus does. */
  function RowOf(e: Entry): Result<Row>
  {
    var rs := e.records;
    match Bonus(rs)
    case Err(m) => Err(m)
    case Ok(bonus) =>
      Ok(MakeRow(e, Quality(rs), InflowScore(Sum(rs, Net)), PressureScore(Sum(rs, Buy), Sum(rs, Sell)), Resonance(rs), bonus,
                 Count(rs, TopBuyer), Count(rs, Positive), Count(rs, IsInstitution), Sum(rs, Net)))
  }

  /**
   * A stock's row carries its code and name, the score `calculate_stock_score`
   * gives its records, and top traders counted among its buyers.
   */
  lemma RowOfSpec(e: Entry)
    requires e.records != []
    ensures RowOf(e).Err? <==> StockScore(e.records).Err?
    ensures RowOf(e).Ok? ==>
      var row := RowOf(e).value;
      && row.code == e.code && row.name == e.name && row.rank == 0 && row.display == ""
      && row.score == StockScore(e.records).value
      && 0.0 <= row.score <= 100.0
      && row.buyers == |Buyers(e.records)|
      && row.topTraders <= row.buyers
  {
    RowOfScore(e);
    RowOfCounts(e);
    StockScoreSpec(e.records);
  }

  /** The row fails with the score and otherwise carries it. */
  lemma RowOfScore(e: Entry)
    requires e.records != []
    ensures RowOf(e).Err? <==> StockScore(e.records).Err?
    ensures RowOf(e).Ok? ==>
      var row := RowOf(e).value;
      row.code == e.code && row.name == e.name && row.rank == 0 && row.display == "" && row.score == StockScore(e.records).value
  {
  }

  /** The row counts the buying seats, and the top traders among them. */
  lemma RowOfCounts(e: Entry)
    ensures RowOf(e).Ok? ==> RowOf(e).value.buyers == |Buyers(e.records)| && RowOf(e).value.topTraders <= RowOf(e).value.buyers
  {
    BuyersCount(e.records);
    TopBuyersSpec(e.records);
  }

  /** The counters of one stock: the net total and the buying seats. */
  method SeatTotals(rs: seq<Record>) returns (totalNet: real, buySeats: nat)
    ensures totalNet == Sum(rs, Net) && buySeats == Count(rs, Positive)
  {
    totalNet, buySeats := 0.0, 0;
    for i := 0 to |rs|
      invariant totalNet == Sum(rs[..i], Net) && buySeats == Count(rs[..i], Positive)
    {
      assert rs[..i + 1][..i] == rs[..i];
      totalNet := totalNet + Net(rs[i]);
      var amount := Buy(rs[i]);
      if amount > 0.0 {
        buySeats := buySeats + 1;
      }
    }
    assert rs[..|rs|] == rs;
  }

  /** The body of the per-stock loop in `score_all_stocks`. */
  method ScoreEntry(e: Entry) returns (row: Result<Row>)
    ensures row == RowOf(e)
  {
    var rs := e.records;
    var quality := CalculateCapitalQuality(rs);
    var inflow := CalculateNetInflowScore(rs);
    var pressure := CalculateSellPressureScore(rs);
    var resonance := CalculateInstitutionScore(rs);
    var bonus := CalculateBonusScore(rs);
    if bonus.Err? {
      return Err(bonus.error);
    }
    var totalNet, buySeats := SeatTotals(rs);
    var institutions := Count(rs, IsInstitution);
    var top := CountTopYouzi(rs);
    row := Ok(MakeRow(e, quality, inflow, pressure, resonance, bonus.value, top, buySeats, institutions, totalNet));
  }

  /** `f` applied to every element; the first failure fails the whole. */
  function AllOk<T, U>(xs: seq<T>, f: T -> Result<U>): Result<seq<U>>
  {
    if |xs| == 0 then Ok([])
    else
      match AllOk(xs[..|xs| - 1], f)
      case Err(m) => Err(m)
      case Ok(ys) =>
        match f(xs[|xs| - 1])
        case Err(m) => Err(m)
        case Ok(y) => Ok(ys + [y])
  }

  /** The results exist exactly when every one does, one per element and in order. */
  lemma {:induction false} AllOkSpec<T, U>(xs: seq<T>, f: T -> Result<U>)
    ensures AllOk(xs, f).Ok? <==> forall i | 0 <= i < |xs| :: f(xs[i]).Ok?
    ensures AllOk(xs, f).Ok? ==>
      |AllOk(xs, f).value| == |xs| && forall i | 0 <= i < |xs| :: AllOk(xs, f).value[i] == f(xs[i]).value
  {
    if |xs| > 0 {
      var init := xs[..|xs| - 1];
      AllOkSpec(init, f);
      assert forall i | 0 <= i < |init| :: init[i] == xs[i];
    }
  }

  /** Once a prefix fails, the whole fails the same way. */
  lemma {:induction false} AllOkErrStays<T, U>(xs: seq<T>, f: T -> Result<U>, n: nat)
    requires n <= |xs| && AllOk(xs[..n], f).Err?
    ensures AllOk(xs, f) == AllOk(xs[..n], f)
    decreases |xs| - n
  {
    if n < |xs| {
      assert xs[..n + 1][..n] == xs[..n];
      AllOkErrStays(xs, f, n + 1);
    } else {
      assert xs[..n] == xs;
    }
  }

  /** The rows of all entries in order. */
  function RowsOf(es: seq<Entry>): Result<seq<Row>> { AllOk(es, RowOf) }

  /** The rows of a grouping are unranked, one per entry, carrying its code. */
  lemma RowsOfSpec(data: seq<Record>, es: seq<Entry>)
    requires Grouping(data, es)
    ensures RowsOf(es).Ok? <==> forall i | 0 <= i < |es| :: StockScore(es[i].records).Ok?
    ensures RowsOf(es).Ok? ==> (|RowsOf(es).value| == |es| &&
      forall i | 0 <= i < |es| :: RowsOf(es).value[i].code == es[i].code
        && RowsOf(es).value[i].score == StockScore(es[i].records).value
        && Unranked(RowsOf(es).value[i]) == RowsOf(es).value[i])
  {
    AllOkSpec(es, RowOf);
    forall i | 0 <= i < |es| ensures RowOf(es[i]).Ok? <==> StockScore(es[i].records).Ok? {
      RowOfSpec(es[i]);
    }
  }

  /** The rank column as displayed: medals for the first three. */
  function Medal(rank: nat): string
  {
    if rank == 1 then "🥇 1" else if rank == 2 then "🥈 2" else if rank == 3 then "🥉 3" else NatText(rank)
  }

  /** The sort key: the total score. */
  function ScoreKey(r: Row): Sorting.Key { Sorting.Fin(r.score) }

  /** Ranks 1..n and their displays assigned in order. */
  function Ranked(rows: seq<Row>): (r: seq<Row>)
    ensures |r| == |rows|
  {
    seq(|rows|, i requires 0 <= i < |rows| => rows[i].(rank := i + 1, display := Medal(i + 1)))
  }

  /** A row with its rank columns cleared, as it was before ranking. */
  function Unranked(r: Row): Row { r.(rank := 0, display := "") }

  /** Ranking changes nothing but the rank columns of unranked rows. */
  lemma RankedSpec(rows: seq<Row>)
    requires forall i | 0 <= i < |rows| :: Unranked(rows[i]) == rows[i]
    ensures Map(Ranked(rows), Unranked) == rows
    ensures forall i | 0 <= i < |rows| :: Ranked(rows)[i].rank == i + 1 && Ranked(rows)[i].score == rows[i].score
  {
    var r := Ranked(rows);
    forall i | 0 <= i < |rows| ensures Unranked(r[i]) == rows[i] {
      assert Unranked(r[i]) == Unranked(rows[i]);
    }
  }

  /** `score_all_stocks`: the rows sorted by score, descending, then ranked. */
  function Ranking(data: seq<Record>): Result<seq<Row>>
  {
    if |data| == 0 then Ok([])
    else
      match Groups(data)
      case Err(m) => Err(m)
      case Ok(es) =>
        match RowsOf(es)
        case Err(m) => Err(m)
        case Ok(rows) => Ok(Ranked(Sorting.SortDesc(rows, ScoreKey)))
  }

  /** Sorting unranked rows keeps them unranked. */
  lemma SortedUnranked(raw: seq<Row>)
    requires forall i | 0 <= i < |raw| :: Unranked(raw[i]) == raw[i]
    ensures var sorted := Sorting.SortDesc(raw, ScoreKey);
      && multiset(sorted) == multiset(raw)
      && (forall i, j | 0 <= i < j < |sorted| :: sorted[i].score >= sorted[j].score)
      && (forall i | 0 <= i < |sorted| :: Unranked(sorted[i]) == sorted[i])
  {
    var sorted := Sorting.SortDesc(raw, ScoreKey);
    Sorting.SortDescSpec(raw, ScoreKey);
    forall i | 0 <= i < |sorted| ensures Unranked(sorted[i]) == sorted[i] {
      assert sorted[i] in multiset(raw);
      var k :| 0 <= k < |raw| && raw[k] == sorted[i];
    }
    forall i, j | 0 <= i < j < |sorted| ensures sorted[i].score >= sorted[j].score {
      assert Sorting.AtLeast(ScoreKey(sorted[i]), ScoreKey(sorted[j]));
    }
  }

  /**
   * Sorting and ranking unranked rows: a permutation of them, by score from
   * the highest, ranked 1..n, with gold, silver and bronze on the first three
   * rows and the plain rank on the others.
   */
  lemma RankRowsSpec(raw: seq<Row>)
    requires forall i | 0 <= i < |raw| :: Unranked(raw[i]) == raw[i]
    ensures var rows := Ranked(Sorting.SortDesc(raw, ScoreKey));
      && |rows| == |raw|
      && multiset(Map(rows, Unranked)) == multiset(raw)
      && (forall i, j | 0 <= i < j < |rows| :: rows[i].score >= rows[j].score)
      && (forall i | 0 <= i < |rows| :: rows[i].rank == i + 1)
      && (|rows| >= 1 ==> rows[0].display == "🥇 1")
      && (|rows| >= 2 ==> rows[1].display == "🥈 2")
      && (|rows| >= 3 ==> rows[2].display == "🥉 3")
      && (forall i | 3 <= i < |rows| :: rows[i].display == NatText(i + 1))
  {
    var sorted := Sorting.SortDesc(raw, ScoreKey);
    var rows := Ranked(sorted);
    SortedUnranked(raw);
    RankedSpec(sorted);
    assert multiset(Map(rows, Unranked)) == multiset(raw);
    forall i, j | 0 <= i < j < |rows| ensures rows[i].score >= rows[j].score {
      assert rows[i].score == sorted[i].score && rows[j].score == sorted[j].score;
    }
    RankedDisplays(sorted);
  }

  /** The first three ranks show a medal, the others their number. */
  lemma RankedDisplays(sorted: seq<Row>)
    ensures var rows := Ranked(sorted);
      && (|rows| >= 1 ==> rows[0].display == "🥇 1")
      && (|rows| >= 2 ==> rows[1].display == "🥈 2")
      && (|rows| >= 3 ==> rows[2].display == "🥉 3")
      && (forall i | 3 <= i < |rows| :: rows[i].display == NatText(i + 1))
  {
  }

  /**
   * A successful `score_all_stocks` groups the records, scores every stock
   * of the grouping, and sorts and ranks the unranked rows.
   */
  lemma RankingSpec(data: seq<Record>)
    requires Ranking(data).Ok? && |data| > 0
    ensures Groups(data).Ok? && RowsOf(Groups(data).value).Ok?
    ensures var es := Groups(data).value; var raw := RowsOf(es).value;
      && Grouping(data, es)
      && (forall i | 0 <= i < |es| :: StockScore(es[i].records).Ok?)
      && Ranking(data).value == Ranked(Sorting.SortDesc(raw, ScoreKey))
      && (forall i | 0 <= i < |raw| :: Unranked(raw[i]) == raw[i])
  {
    GroupsSpec(data);
    RowsOfSpec(data, Groups(data).value);
  }

  /** Ranking fails exactly when some code is unhashable or some stock's score fails. */
  lemma RankingErr(data: seq<Record>)
    ensures Ranking(data).Err? <==>
      |data| > 0 && (Groups(data).Err? || exists i | 0 <= i < |Groups(data).value| :: StockScore(Groups(data).value[i].records).Err?)
  {
    if |data| > 0 && Groups(data).Ok? {
      GroupsSpec(data);
      RowsOfSpec(data, Groups(data).value);
    }
  }

  /** The ranking pass of `score_all_stocks`: ranks 1..n, their text, then the medals. */
  method AssignRanks(sorted: seq<Row>) returns (ranked: seq<Row>)
    ensures ranked == Ranked(sorted)
  {
    ranked := sorted;
    for i := 0 to |ranked|
      invariant |ranked| == |sorted|
      invariant forall k | 0 <= k < i :: ranked[k] == sorted[k].(rank := k + 1, display := NatText(k + 1))
      invariant forall k | i <= k < |ranked| :: ranked[k] == sorted[k]
    {
      ranked := ranked[i := ranked[i].(rank := i + 1, display := NatText(i + 1))];
    }
    if |ranked| >= 1 {
      ranked := ranked[0 := ranked[0].(display := "🥇 1")];
    }
    if |ranked| >= 2 {
      ranked := ranked[1 := ranked[1].(display := "🥈 2")];
    }
    if |ranked| >= 3 {
      ranked := ranked[2 := ranked[2].(display := "🥉 3")];
    }
    assert forall k | 0 <= k < |ranked| :: ranked[k] == Ranked(sorted)[k];
  }

  /** The per-stock loop of `score_all_stocks`. */
  method ScoreEntries(entries: seq<Entry>) returns (result: Result<seq<Row>>)
    ensures result == RowsOf(entries)
  {
    var rows: seq<Row> := [];
    for k := 0 to |entries|
      invariant AllOk(entries[..k], RowOf) == Ok(rows)
    {
      assert entries[..k + 1][..k] == entries[..k];
      var row := ScoreEntry(entries[k]);
      if row.Err? {
        AllOkErrStays(entries, RowOf, k + 1);
        return Err(row.error);
      }
      rows := rows + [row.value];
    }
    assert entries[..|entries|] == entries;
    return Ok(rows);
  }

  /** `score_all_stocks` */
  method ScoreAllStocks(data: seq<Record>) returns (result: Result<seq<Row>>)
    ensures result == Ranking(data)
  {
    if |data| == 0 {
      return Ok([]);
    }
    var groups := GroupRecords(data);
    if groups.Err? {
      return Err(groups.error);
    }
    var rows := ScoreEntries(groups.value);
    if rows.Err? {
      return Err(rows.error);
    }
    var sorted := Sorting.SortDesc(rows.value, ScoreKey);
    var ranked := AssignRanks(sorted);
    return Ok(ranked);
  }
}
