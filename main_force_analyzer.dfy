/**
 * `DeepSeekMainForceAIAnalyzer`: the tables and texts it writes into its four
 * prompts, the tolerant JSON reading of the final selection and the mapping
 * of the selection onto recommendations. The chat client is an oracle
 * (`Client`): the reply to the n-th call is `respond(n, call)`, a text or a
 * raised error; JSON decoding is a parameter `decode` (an `Err` is a
 * `JSONDecodeError` and carries its message).
 */
module MainForceAnalyzer {
  import opened Wrappers
  import opened Strings
  import opened Values
  import opened Sorting
  import opened Lists
  import opened MainForceModel
  import Orchestrator

  // ---- _parse_json_response: the candidates ----

  const Fence := "```"

  /** The first index at or after `from` where `p` occurs, or -1. */
  function FindFrom(s: string, p: string, from: nat): (i: int)
    requires |p| > 0
    ensures i == -1 || (from <= i && OccursAt(s, p, i))
    ensures forall k | from <= k && (i == -1 || k < i) :: !OccursAt(s, p, k)
    decreases |s| - from
  {
    if from + |p| > |s| then -1
    else if s[from..from + |p|] == p then from
    else FindFrom(s, p, from + 1)
  }

  /**
   * Where the fenced block of "```(?:json)?\s*(.*?)\s*```" lies: the first
   * fence, and the first fence that starts after it ends.
   */
  function FenceSpan(s: string): (r: Option<(nat, nat)>)
    ensures r.Some? ==> (OccursAt(s, Fence, r.value.0) && OccursAt(s, Fence, r.value.1) && r.value.0 + 3 <= r.value.1
                         && (forall k | 0 <= k < r.value.0 :: !OccursAt(s, Fence, k))
                         && (forall k | r.value.0 + 3 <= k < r.value.1 :: !OccursAt(s, Fence, k)))
    ensures r.None? <==> forall i, k | 0 <= i && i + 3 <= k :: !(OccursAt(s, Fence, i) && OccursAt(s, Fence, k))
  {
    var p := FindFrom(s, Fence, 0);
    if p < 0 then None
    else
      var q := FindFrom(s, Fence, p + 3);
      if q < 0 then None else Some((p, q))
  }

  /** The optional `json` tag after the opening fence, in any letter case. */
  predicate JsonTagAt(s: string, j: nat)
  {
    j + 4 <= |s| && UpperChar(s[j]) == 'J' && UpperChar(s[j + 1]) == 'S' && UpperChar(s[j + 2]) == 'O' && UpperChar(s[j + 3]) == 'N'
  }

  /** The fenced block's text: after the fence and its optional tag, with surrounding whitespace removed. */
  function FenceBody(s: string): (b: Option<string>)
    ensures b.Some? <==> FenceSpan(s).Some?
    ensures b.Some? ==> !Contains(b.value, Fence)
  {
    match FenceSpan(s)
    case None => None
    case Some((p, q)) =>
      var j := if JsonTagAt(s, p + 3) && p + 7 <= q then p + 7 else p + 3;
      FencedNoFence(s, p, q, j);
      Some(Strip(s[j..q]))
  }

  /** An occurrence inside a copied stretch of `s` is an occurrence in `s`. */
  lemma OccursInCopy(s: string, r: string, d: nat, p: string, i: nat)
    requires d + |r| <= |s| && forall k | 0 <= k < |r| :: r[k] == s[d + k]
    requires OccursAt(r, p, i)
    ensures OccursAt(s, p, d + i)
  {
    assert s[d + i..d + i + |p|] == r[i..i + |p|];
  }

  /** Between the two fences there is no third one. */
  lemma FencedNoFence(s: string, p: nat, q: nat, j: nat)
    requires p + 3 <= j <= q && q + 3 <= |s|
    requires forall k | p + 3 <= k < q :: !OccursAt(s, Fence, k)
    ensures !Contains(Strip(s[j..q]), Fence)
  {
    var t := s[j..q];
    var a := LeadingSpaces(t);
    var u := t[a..];
    var r := Strip(t);
    assert r == u[..|u| - TrailingSpaces(u)];
    assert forall k | 0 <= k < |r| :: r[k] == s[j + a + k];
    forall i | 0 <= i <= |r| ensures !OccursAt(r, Fence, i) {
      if OccursAt(r, Fence, i) {
        OccursInCopy(s, r, j + a, Fence, i);
      }
    }
  }

  /** The texts tried in order: the fenced block, the first-'{'-to-last-'}' span, the whole response. */
  function Candidates(response: string): (cs: seq<string>)
    ensures 1 <= |cs| <= 3 && cs[|cs| - 1] == response
    ensures FenceBody(response).Some? ==> cs[0] == FenceBody(response).value
  {
    (if FenceBody(response).Some? then [FenceBody(response).value] else [])
    + (match Orchestrator.JsonBounds(response)
       case Some((lo, hi)) => [response[lo..hi + 1]]
       case None => [])
    + [response]
  }

  // ---- the trailing-comma cleanup ----

  /** `re.sub(r',\s*X', 'X', s)` for the closing character `X`: each comma followed by blanks and `X` is dropped with the blanks. */
  function StripCommas(s: string, close: char): (r: string)
    ensures |r| <= |s|
    decreases |s|
  {
    if |s| == 0 then ""
    else
      var n := LeadingSpaces(s[1..]);
      if s[0] == ',' && 1 + n < |s| && s[1 + n] == close then [close] + StripCommas(s[2 + n..], close)
      else [s[0]] + StripCommas(s[1..], close)
  }

  /** The text without its commas and whitespace. */
  function Solid(s: string): string
  {
    if |s| == 0 then "" else (if s[0] == ',' || IsSpace(s[0]) then "" else [s[0]]) + Solid(s[1..])
  }

  lemma {:induction false} SolidAfterSpaces(t: string, n: nat)
    requires n <= |t| && forall i | 0 <= i < n :: IsSpace(t[i])
    ensures Solid(t) == Solid(t[n..])
    decreases n
  {
    if n > 0 {
      SolidAfterSpaces(t[1..], n - 1);
      assert t[1..][n - 1..] == t[n..];
    }
  }

  lemma {:induction false} SubsequenceAfter<T>(x: seq<T>, t: seq<T>, n: nat)
    requires n <= |t| && SubsequenceOf(x, t[n..])
    ensures SubsequenceOf(x, t)
    decreases n
  {
    if n > 0 {
      assert t[1..][n - 1..] == t[n..];
      SubsequenceAfter(x, t[1..], n - 1);
    }
  }

  /**
   * The cleanup only deletes: its result is a subsequence of the text, and
   * everything but commas and whitespace survives; a text without commas is
   * left as it is.
   */
  lemma {:induction false} StripCommasSpec(s: string, close: char)
    requires close != ',' && !IsSpace(close)
    ensures SubsequenceOf(StripCommas(s, close), s)
    ensures Solid(StripCommas(s, close)) == Solid(s)
    ensures ',' !in s ==> StripCommas(s, close) == s
  {
    StripCommasDeletes(s, close);
    StripCommasSolid(s, close);
    if ',' !in s {
      StripCommasKeeps(s, close);
    }
  }

  lemma {:induction false} StripCommasDeletes(s: string, close: char)
    ensures SubsequenceOf(StripCommas(s, close), s)
    decreases |s|
  {
    if |s| > 0 {
      var n := LeadingSpaces(s[1..]);
      if s[0] == ',' && 1 + n < |s| && s[1 + n] == close {
        var rest := s[2 + n..];
        StripCommasDeletes(rest, close);
        var r := StripCommas(s, close);
        assert r == [close] + StripCommas(rest, close);
        assert s[1 + n..] == [close] + rest;
        assert r[1..] == StripCommas(rest, close);
        assert SubsequenceOf(r, s[1 + n..]);
        SubsequenceAfter(r, s, 1 + n);
      } else {
        StripCommasDeletes(s[1..], close);
        assert StripCommas(s, close)[1..] == StripCommas(s[1..], close);
      }
    }
  }

  lemma {:induction false} StripCommasSolid(s: string, close: char)
    requires close != ',' && !IsSpace(close)
    ensures Solid(StripCommas(s, close)) == Solid(s)
    decreases |s|
  {
    if |s| > 0 {
      var n := LeadingSpaces(s[1..]);
      if s[0] == ',' && 1 + n < |s| && s[1 + n] == close {
        var rest := s[2 + n..];
        StripCommasSolid(rest, close);
        var r := StripCommas(s, close);
        assert r == [close] + StripCommas(rest, close);
        assert s[1..][n..] == s[1 + n..];
        SolidAfterSpaces(s[1..], n);
        assert s[1 + n..] == [close] + rest;
        assert Solid(s[1 + n..]) == [close] + Solid(rest);
        assert r[1..] == StripCommas(rest, close);
      } else {
        StripCommasSolid(s[1..], close);
        assert StripCommas(s, close)[1..] == StripCommas(s[1..], close);
      }
    }
  }

  lemma {:induction false} StripCommasKeeps(s: string, close: char)
    requires ',' !in s
    ensures StripCommas(s, close) == s
    decreases |s|
  {
    if |s| > 0 {
      assert ',' !in s[1..];
      StripCommasKeeps(s[1..], close);
      assert StripCommas(s, close) == [s[0]] + s[1..];
    }
  }

  lemma {:induction false} LeadingSpacesAppend(ws: string, t: string)
    requires IsBlank(ws)
    ensures LeadingSpaces(ws + t) == |ws| + LeadingSpaces(t)
    decreases |ws|
  {
    if |ws| > 0 {
      assert (ws + t)[0] == ws[0];
      assert (ws + t)[1..] == ws[1..] + t;
      LeadingSpacesAppend(ws[1..], t);
    } else {
      assert ws + t == t;
    }
  }

  /** A comma, blanks and the closing character become the closing character alone. */
  lemma TrailingCommaDropped(ws: string, close: char, rest: string)
    requires IsBlank(ws) && !IsSpace(close)
    ensures StripCommas([','] + ws + [close] + rest, close) == [close] + StripCommas(rest, close)
  {
    var s := [','] + ws + [close] + rest;
    assert s[1..] == ws + ([close] + rest);
    LeadingSpacesAppend(ws, [close] + rest);
    assert s[1 + |ws|] == close;
    assert s[2 + |ws|..] == rest;
  }

  /** The text retried after a decoding error: trailing commas before '}' and then before ']' removed. */
  function Cleaned(c: string): string
  {
    StripCommas(StripCommas(c, '}'), ']')
  }

  /** The retried text is the candidate with some commas and blanks deleted, and no other change. */
  lemma CleanedSpec(c: string)
    ensures SubsequenceOf(Cleaned(c), c) && Solid(Cleaned(c)) == Solid(c)
    ensures ',' !in c ==> Cleaned(c) == c
  {
    StripCommasSpec(c, '}');
    StripCommasSpec(StripCommas(c, '}'), ']');
    SubsequenceTrans(Cleaned(c), StripCommas(c, '}'), c);
  }

  // ---- _parse_json_response: the attempts ----

  const NoJson := "无法从响应中解析出有效的JSON: "

  /** One candidate: decoded as it is, else decoded after the cleanup. */
  function Attempt(c: string, decode: string -> Result<Value>): (v: Option<Value>)
    ensures v.Some? <==> decode(c).Ok? || decode(Cleaned(c)).Ok?
    ensures decode(c).Ok? ==> v == Some(decode(c).value)
  {
    if decode(c).Ok? then Some(decode(c).value)
    else if decode(Cleaned(c)).Ok? then Some(decode(Cleaned(c)).value)
    else None
  }

  /** The first candidate an attempt succeeds on. */
  function FirstParsed(cs: seq<string>, decode: string -> Result<Value>): (i: Option<nat>)
    ensures i.Some? ==> (i.value < |cs| && Attempt(cs[i.value], decode).Some?
                         && forall j | 0 <= j < i.value :: Attempt(cs[j], decode).None?)
    ensures i.None? ==> forall j | 0 <= j < |cs| :: Attempt(cs[j], decode).None?
  {
    if |cs| == 0 then None
    else if Attempt(cs[0], decode).Some? then Some(0)
    else
      var rest := FirstParsed(cs[1..], decode);
      if rest.None? then None else Some(rest.value + 1)
  }

  /**
   * `_parse_json_response`: the value of the first candidate that decodes,
   * directly or after the cleanup; when none does, a `ValueError` naming
   * the last cleanup's decoding error (that of the whole response).
   */
  function Parsed(response: string, decode: string -> Result<Value>): Result<Value>
  {
    FirstDecoded(Candidates(response), decode)
  }

  /** The first candidate's value that decodes, else the last candidate's cleanup error. */
  function FirstDecoded(cs: seq<string>, decode: string -> Result<Value>): Result<Value>
    requires |cs| > 0
  {
    var first := FirstParsed(cs, decode);
    if first.Some? then Ok(Attempt(cs[first.value], decode).value) else Err(NoJson + decode(Cleaned(cs[|cs| - 1])).error)
  }

  /** The candidate loop, keeping the last cleanup's error. */
  method TryCandidates(cs: seq<string>, decode: string -> Result<Value>) returns (r: Result<Value>)
    requires |cs| > 0
    ensures r == FirstDecoded(cs, decode)
  {
    var lastError := "";
    var i := 0;
    while i < |cs|
      invariant 0 <= i <= |cs|
      invariant forall j | 0 <= j < i :: Attempt(cs[j], decode).None?
      invariant 0 < i ==> lastError == decode(Cleaned(cs[i - 1])).error
    {
      FirstParsedAt(cs, decode, i);
      var direct := decode(cs[i]);
      if direct.Ok? {
        return Ok(direct.value);
      }
      var fixed := decode(Cleaned(cs[i]));
      if fixed.Ok? {
        return Ok(fixed.value);
      }
      lastError := fixed.error;
      i := i + 1;
    }
    FirstParsedAt(cs, decode, i);
    return Err(NoJson + lastError);
  }

  method ParseJsonResponse(response: string, decode: string -> Result<Value>) returns (r: Result<Value>)
    ensures r == Parsed(response, decode)
  {
    r := TryCandidates(Candidates(response), decode);
  }

  /** After `i` candidates that fail, the first to parse is the next one if it parses; there is none if no candidate is left. */
  lemma {:induction false} FirstParsedAt(cs: seq<string>, decode: string -> Result<Value>, i: nat)
    requires i <= |cs| && forall j | 0 <= j < i :: Attempt(cs[j], decode).None?
    ensures i < |cs| && Attempt(cs[i], decode).Some? ==> FirstParsed(cs, decode) == Some(i)
    ensures i == |cs| ==> FirstParsed(cs, decode).None?
    decreases i
  {
    if i > 0 {
      FirstParsedAt(cs[1..], decode, i - 1);
    }
  }

  /** The parse fails only when no candidate decodes, neither as it is nor after the cleanup. */
  lemma ParsedErr(response: string, decode: string -> Result<Value>)
    ensures Parsed(response, decode).Err? <==>
      forall i | 0 <= i < |Candidates(response)| ::
        decode(Candidates(response)[i]).Err? && decode(Cleaned(Candidates(response)[i])).Err?
    ensures Parsed(response, decode).Err? ==> Parsed(response, decode).error == NoJson + decode(Cleaned(response)).error
  {
    var cs := Candidates(response);
    if Parsed(response, decode).Err? {
      forall i | 0 <= i < |cs| ensures decode(cs[i]).Err? && decode(Cleaned(cs[i])).Err? {
        NoneParsed(cs, decode, i);
      }
    }
  }

  /** When no candidate is the first to parse, none parses. */
  lemma {:induction false} NoneParsed(cs: seq<string>, decode: string -> Result<Value>, i: nat)
    requires i < |cs| && FirstParsed(cs, decode).None?
    ensures Attempt(cs[i], decode).None?
    decreases |cs|
  {
    if i > 0 {
      NoneParsed(cs[1..], decode, i - 1);
    }
  }

  /** A fenced block that decodes wins over everything else in the reply. */
  lemma FencedFirst(response: string, decode: string -> Result<Value>)
    requires FenceBody(response).Some? && Attempt(FenceBody(response).value, decode).Some?
    ensures FirstParsed(Candidates(response), decode) == Some(0)
  {
  }

  /** A reply that decodes as it stands is never rejected. */
  lemma WholeReplyParses(response: string, decode: string -> Result<Value>)
    requires decode(response).Ok?
    ensures FirstParsed(Candidates(response), decode).Some?
  {
    var cs := Candidates(response);
    assert Attempt(cs[|cs| - 1], decode).Some?;
  }

  // ---- the prompt tables ----

  /** A markdown table row: the cells between bars. */
  function Row(cells: seq<string>): string
  {
    "| " + Join(cells, " | ") + " |"
  }

  /** `f"{x}"` for an optional float. */
  function OptFloat(x: Option<real>): string
  {
    if x.None? then "None" else FloatText(x.value)
  }

  /** `f"{x}"` for an optional text. */
  function OptText(x: Option<string>): string
  {
    if x.None? then "None" else x.value
  }

  /**
   * The heading lines followed by one line per item, joined by newlines: the
   * `lines.append(...)` loop every table writer runs.
   */
  method Tabulate<T>(head: seq<string>, xs: seq<T>, line: T -> string) returns (text: string)
    ensures text == Join(head + Map(xs, line), "\n")
  {
    var lines := head;
    for i := 0 to |xs|
      invariant lines == head + Map(xs[..i], line)
    {
      assert Map(xs[..i + 1], line) == Map(xs[..i], line) + [line(xs[i])];
      lines := lines + [line(xs[i])];
    }
    assert xs[..|xs|] == xs;
    text := Join(lines, "\n");
  }

  /** `x.main_fund_inflow or -float('inf')`: a zero inflow sorts below every other. */
  function InflowKey(s: Stock): Key
  {
    OrNegInf(s.mainFundInflow)
  }

  /** `sorted(stocks, key=InflowKey, reverse=True)[:n]` */
  function ByInflow(stocks: seq<Stock>, n: nat): seq<Stock>
  {
    Take(SortDesc(stocks, InflowKey), n)
  }

  /**
   * At most `n` stocks, all taken from the list and none more often than it
   * holds them, largest inflow first, the stocks with no inflow last; all of
   * them when the list is no longer, and otherwise no stock left out has a
   * larger inflow than a listed one.
   */
  lemma ByInflowSpec(stocks: seq<Stock>, n: nat)
    ensures var r := ByInflow(stocks, n);
      |r| <= n && |r| <= |stocks|
      && (forall i | 0 <= i < |r| :: r[i] in multiset(stocks))
      && multiset(r) <= multiset(stocks)
      && (forall i, j | 0 <= i < j < |r| && r[j].mainFundInflow != 0.0 ::
            r[i].mainFundInflow != 0.0 && r[i].mainFundInflow >= r[j].mainFundInflow)
      && (|stocks| <= n ==> multiset(r) == multiset(stocks))
      && (forall s | s in stocks && s !in r :: forall i | 0 <= i < |r| ::
            s.mainFundInflow != 0.0 ==> r[i].mainFundInflow != 0.0 && r[i].mainFundInflow >= s.mainFundInflow)
  {
    var r := ByInflow(stocks, n);
    assert |r| <= n && |r| <= |stocks| && (forall i | 0 <= i < |r| :: r[i] in multiset(stocks))
      && (|stocks| <= n ==> multiset(r) == multiset(stocks)) by {
      TopSpec(stocks, InflowKey, n);
    }
    TopSubMultiset(stocks, InflowKey, n);
    ByInflowOrdered(stocks, n);
    ByInflowLargest(stocks, n);
  }

  /** An inflow key at least another's: a zero inflow only ever sits below. */
  lemma InflowAtLeast(a: Stock, b: Stock)
    requires AtLeast(InflowKey(a), InflowKey(b))
    ensures b.mainFundInflow != 0.0 ==> a.mainFundInflow != 0.0 && a.mainFundInflow >= b.mainFundInflow
  {
  }

  lemma ByInflowOrdered(stocks: seq<Stock>, n: nat)
    ensures var r := ByInflow(stocks, n);
      forall i, j | 0 <= i < j < |r| && r[j].mainFundInflow != 0.0 ::
        r[i].mainFundInflow != 0.0 && r[i].mainFundInflow >= r[j].mainFundInflow
  {
    var r := ByInflow(stocks, n);
    TopDescending(stocks, InflowKey, n);
    forall i, j | 0 <= i < j < |r| && r[j].mainFundInflow != 0.0
      ensures r[i].mainFundInflow != 0.0 && r[i].mainFundInflow >= r[j].mainFundInflow
    {
      InflowAtLeast(r[i], r[j]);
    }
  }

  /** No stock left out of the first `n` has a larger inflow than a listed one. */
  lemma ByInflowLargest(stocks: seq<Stock>, n: nat)
    ensures var r := ByInflow(stocks, n);
      forall s | s in stocks && s !in r :: forall i | 0 <= i < |r| ::
        s.mainFundInflow != 0.0 ==> r[i].mainFundInflow != 0.0 && r[i].mainFundInflow >= s.mainFundInflow
  {
    var r := ByInflow(stocks, n);
    forall s, i | s in stocks && s !in r && 0 <= i < |r|
      ensures s.mainFundInflow != 0.0 ==> r[i].mainFundInflow != 0.0 && r[i].mainFundInflow >= s.mainFundInflow
    {
      TopAbove(stocks, InflowKey, n, s);
      InflowAtLeast(r[i], s);
    }
  }

  const FundHead := ["| 代码 | 名称 | 主力净流入(万) | 涨跌幅(%) | 市值(亿) |", "|---|---|---|---|---|"]

  function FundLine(s: Stock): string
  {
    Row([s.symbol, s.name, FloatText(s.mainFundInflow), FloatText(s.rangeChange), FloatText(s.marketCap)])
  }

  /** The fund-flow table: the 30 stocks of largest inflow. */
  function FundTable(stocks: seq<Stock>): string
  {
    Join(FundHead + Map(ByInflow(stocks, 30), FundLine), "\n")
  }

  /** `_format_stocks_for_fund` */
  method FormatFund(stocks: seq<Stock>) returns (text: string)
    ensures text == FundTable(stocks)
  {
    text := Tabulate(FundHead, ByInflow(stocks, 30), FundLine);
  }

  /** The industries of `stocks` in order of first appearance, each once (a dict's insertion order). */
  function Industries(stocks: seq<Stock>): (r: seq<string>)
    ensures forall i, j | 0 <= i < j < |r| :: r[i] != r[j]
    ensures forall k | 0 <= k < |stocks| :: stocks[k].industry in r
    ensures forall x | x in r :: exists k | 0 <= k < |stocks| :: stocks[k].industry == x
    decreases |stocks|
  {
    if |stocks| == 0 then []
    else
      var init := stocks[..|stocks| - 1];
      var r := Industries(init);
      var ind := stocks[|stocks| - 1].industry;
      assert forall k | 0 <= k < |init| :: init[k] == stocks[k];
      if ind in r then r else r + [ind]
  }

  /** The stocks of one industry, in list order. */
  function Members(stocks: seq<Stock>, ind: string): (r: seq<Stock>)
    ensures |r| <= |stocks|
    ensures forall s | s in r :: s in stocks && s.industry == ind
    ensures |r| == 0 <==> forall k | 0 <= k < |stocks| :: stocks[k].industry != ind
    decreases |stocks|
  {
    if |stocks| == 0 then []
    else
      var init := stocks[..|stocks| - 1];
      var last := stocks[|stocks| - 1];
      assert forall k | 0 <= k < |init| :: init[k] == stocks[k];
      Members(init, ind) + (if last.industry == ind then [last] else [])
  }

  /** `industries.items()`: each industry with its stocks, in order of first appearance. */
  function Grouped(stocks: seq<Stock>): (r: seq<(string, seq<Stock>)>)
    ensures |r| == |Industries(stocks)|
    ensures forall i | 0 <= i < |r| :: r[i] == (Industries(stocks)[i], Members(stocks, Industries(stocks)[i]))
  {
    var inds := Industries(stocks);
    seq(|inds|, i requires 0 <= i < |inds| => (inds[i], Members(stocks, inds[i])))
  }

  /** `len(x[1])`, the key industries are ranked by. */
  function GroupKey(g: (string, seq<Stock>)): Key
  {
    Fin(|g.1| as real)
  }

  /** `sorted(industries.items(), key=GroupKey, reverse=True)[:10]` */
  function TopGroups(stocks: seq<Stock>): seq<(string, seq<Stock>)>
  {
    Take(SortDesc(Grouped(stocks), GroupKey), 10)
  }

  /**
   * Ten industries, or all of them when there are fewer, each listed once, each
   * an industry of some stock, with all its stocks.
   */
  lemma TopGroupsMembers(stocks: seq<Stock>)
    ensures var r := TopGroups(stocks);
      && |r| == (if |Industries(stocks)| < 10 then |Industries(stocks)| else 10)
      && (forall i | 0 <= i < |r| :: r[i].0 in Industries(stocks) && r[i].1 == Members(stocks, r[i].0))
      && (forall i, j | 0 <= i < j < |r| :: r[i].0 != r[j].0)
  {
    var g := Grouped(stocks);
    TopSpec(g, GroupKey, 10);
    var r := TopGroups(stocks);
    forall i | 0 <= i < |r| ensures r[i].0 in Industries(stocks) && r[i].1 == Members(stocks, r[i].0) {
      assert r[i] in multiset(g);
      var m :| 0 <= m < |g| && g[m] == r[i];
    }
    assert forall i, j | 0 <= i < j < |g| :: g[i] != g[j] by {
      forall i, j | 0 <= i < j < |g| ensures g[i] != g[j] {
        assert g[i].0 == Industries(stocks)[i] && g[j].0 == Industries(stocks)[j];
      }
    }
    TopDistinct(g, GroupKey, 10);
    forall i, j | 0 <= i < j < |r| ensures r[i].0 != r[j].0 {
      assert r[i] != r[j];
    }
  }

  /**
   * The industries are ranked by how many stocks they hold, largest first, and
   * no industry left out holds more stocks than a listed one.
   */
  lemma TopGroupsRanked(stocks: seq<Stock>)
    ensures var r := TopGroups(stocks);
      && (forall i, j | 0 <= i < j < |r| :: |r[i].1| >= |r[j].1|)
      && (forall ind | ind in Industries(stocks) && (forall i | 0 <= i < |r| :: r[i].0 != ind) ::
            forall i | 0 <= i < |r| :: |r[i].1| >= |Members(stocks, ind)|)
  {
    var g := Grouped(stocks);
    var r := TopGroups(stocks);
    assert forall i, j | 0 <= i < j < |r| :: |r[i].1| >= |r[j].1| by {
      TopDescending(g, GroupKey, 10);
      forall i, j | 0 <= i < j < |r| ensures |r[i].1| >= |r[j].1| {
        assert AtLeast(GroupKey(r[i]), GroupKey(r[j]));
      }
    }
    forall ind | ind in Industries(stocks) && (forall i | 0 <= i < |r| :: r[i].0 != ind)
      ensures forall i | 0 <= i < |r| :: |r[i].1| >= |Members(stocks, ind)|
    {
      var m :| 0 <= m < |g| && Industries(stocks)[m] == ind;
      assert g[m] == (ind, Members(stocks, ind));
      assert g[m] !in r;
      TopAbove(g, GroupKey, 10, g[m]);
      forall i | 0 <= i < |r| ensures |r[i].1| >= |Members(stocks, ind)| {
        assert AtLeast(GroupKey(r[i]), GroupKey(g[m]));
      }
    }
  }

  /** With at most ten industries every stock's industry is listed. */
  lemma TopGroupsComplete(stocks: seq<Stock>, k: nat)
    requires |Industries(stocks)| <= 10 && k < |stocks|
    ensures exists i | 0 <= i < |TopGroups(stocks)| :: TopGroups(stocks)[i].0 == stocks[k].industry
  {
    var g := Grouped(stocks);
    var inds := Industries(stocks);
    TopSpec(g, GroupKey, 10);
    var r := TopGroups(stocks);
    var m :| 0 <= m < |inds| && inds[m] == stocks[k].industry;
    assert g[m] in multiset(r);
    var i :| 0 <= i < |r| && r[i] == g[m];
  }

  /** `f"{s.name}({s.range_change}%)"` */
  function NameTag(s: Stock): string
  {
    s.name + "(" + FloatText(s.rangeChange) + "%)"
  }

  /** An industry's three lines: its heading with the count, its first five stocks, a blank line. */
  function IndustryBlock(g: (string, seq<Stock>)): (r: seq<string>)
    ensures |r| == 3 && r[2] == ""
  {
    ["### " + g.0 + " (" + NatText(|g.1|) + "只)", Join(Map(Take(g.1, 5), NameTag), ", "), ""]
  }

  /** The industry text: a block for each of the top ten industries. */
  function IndustryText(stocks: seq<Stock>): string
  {
    Join(Flatten(Map(TopGroups(stocks), IndustryBlock)), "\n")
  }

  /** The lists one after the other. */
  function Flatten(xss: seq<seq<string>>): seq<string>
  {
    if |xss| == 0 then [] else Flatten(xss[..|xss| - 1]) + xss[|xss| - 1]
  }

  /** One more stock: its industry joins the list if it is new. */
  lemma IndustriesStep(stocks: seq<Stock>, i: nat)
    requires i < |stocks|
    ensures var ind, before := stocks[i].industry, Industries(stocks[..i]);
      Industries(stocks[..i + 1]) == if ind in before then before else before + [ind]
  {
    assert stocks[..i + 1][..i] == stocks[..i];
  }

  /** One more stock: the members of its industry gain it, the other industries keep theirs. */
  lemma MembersStep(stocks: seq<Stock>, i: nat, ind: string)
    requires i < |stocks|
    ensures Members(stocks[..i + 1], ind) == Members(stocks[..i], ind) + (if stocks[i].industry == ind then [stocks[i]] else [])
  {
    assert stocks[..i + 1][..i] == stocks[..i];
  }

  /** The grouping loop: each industry, in order of appearance, with its stocks. */
  method GroupByIndustry(stocks: seq<Stock>) returns (order: seq<string>, groups: map<string, seq<Stock>>)
    ensures order == Industries(stocks)
    ensures forall ind | ind in order :: ind in groups && groups[ind] == Members(stocks, ind)
    ensures forall ind | ind in groups :: ind in order
  {
    order, groups := [], map[];
    for i := 0 to |stocks|
      invariant order == Industries(stocks[..i])
      invariant forall ind | ind in order :: ind in groups && groups[ind] == Members(stocks[..i], ind)
      invariant forall ind | ind in groups :: ind in order
    {
      order, groups := GroupStock(stocks, i, order, groups);
    }
    assert stocks[..|stocks|] == stocks;
  }

  /** One pass of the grouping loop: stock `i` joins its industry's group, which is opened if new. */
  method GroupStock(stocks: seq<Stock>, i: nat, order: seq<string>, groups: map<string, seq<Stock>>)
    returns (order': seq<string>, groups': map<string, seq<Stock>>)
    requires i < |stocks| && order == Industries(stocks[..i])
    requires forall ind | ind in order :: ind in groups && groups[ind] == Members(stocks[..i], ind)
    requires forall ind | ind in groups :: ind in order
    ensures order' == Industries(stocks[..i + 1])
    ensures forall ind | ind in order' :: ind in groups' && groups'[ind] == Members(stocks[..i + 1], ind)
    ensures forall ind | ind in groups' :: ind in order'
  {
    var s := stocks[i];
    var ind := s.industry;
    assert ind in groups <==> ind in order;
    var members := if ind in groups then groups[ind] else [];
    order' := order;
    if ind !in groups {
      order' := order + [ind];
    }
    groups' := groups[ind := members + [s]];
    assert order' == Industries(stocks[..i + 1]) by {
      IndustriesStep(stocks, i);
    }
    assert forall x | x in groups' :: groups'[x] == Members(stocks[..i + 1], x) by {
      if ind !in groups {
        NoMembers(stocks[..i], ind);
      }
      GroupsAfter(stocks, i, groups);
    }
  }

  /** Adding stock `i` to its industry's group (opened empty if new) gives the groups of one more stock. */
  lemma GroupsAfter(stocks: seq<Stock>, i: nat, groups: map<string, seq<Stock>>)
    requires i < |stocks|
    requires forall x | x in groups :: groups[x] == Members(stocks[..i], x)
    requires stocks[i].industry !in groups ==> Members(stocks[..i], stocks[i].industry) == []
    ensures var ind := stocks[i].industry;
      var groups' := groups[ind := (if ind in groups then groups[ind] else []) + [stocks[i]]];
      forall x | x in groups' :: groups'[x] == Members(stocks[..i + 1], x)
  {
    var ind := stocks[i].industry;
    var groups' := groups[ind := (if ind in groups then groups[ind] else []) + [stocks[i]]];
    forall x | x in groups' ensures groups'[x] == Members(stocks[..i + 1], x) {
      MembersStep(stocks, i, x);
    }
  }

  /** An industry none of the stocks has has no members. */
  lemma NoMembers(stocks: seq<Stock>, ind: string)
    requires ind !in Industries(stocks)
    ensures Members(stocks, ind) == []
  {
  }

  /** The lines of each item's block, one block after the other, joined by newlines. */
  method Blocks<T>(xs: seq<T>, block: T -> seq<string>) returns (text: string)
    ensures text == Join(Flatten(Map(xs, block)), "\n")
  {
    var lines := [];
    for i := 0 to |xs|
      invariant lines == Flatten(Map(xs[..i], block))
    {
      assert Map(xs[..i + 1], block)[..i] == Map(xs[..i], block);
      lines := lines + block(xs[i]);
    }
    assert xs[..|xs|] == xs;
    text := Join(lines, "\n");
  }

  /** `_format_stocks_for_industry` */
  method FormatIndustry(stocks: seq<Stock>) returns (text: string)
    ensures text == IndustryText(stocks)
  {
    var order, groups := GroupByIndustry(stocks);
    var items := seq(|order|, i requires 0 <= i < |order| => (order[i], groups[order[i]]));
    forall i | 0 <= i < |items| ensures items[i] == Grouped(stocks)[i] {
    }
    assert items == Grouped(stocks);
    text := Blocks(Take(SortDesc(items, GroupKey), 10), IndustryBlock);
  }

  /** `s.pe_ratio and s.pe_ratio > 0` */
  predicate PricedByEarnings(s: Stock)
  {
    s.peRatio.Some? && s.peRatio.value > 0.0
  }

  /** Ascending by PE is descending by minus PE. */
  function PeKey(s: Stock): Key
  {
    if s.peRatio.Some? then Fin(-s.peRatio.value) else NegInf
  }

  /** `sorted(valid_pe, key=lambda x: x.pe_ratio)[:30]` */
  function ByPe(stocks: seq<Stock>): seq<Stock>
  {
    Take(SortDesc(Filter(stocks, PricedByEarnings), PeKey), 30)
  }

  /**
   * At most 30 stocks, each from the list with a positive PE and none more
   * often than the list holds it, lowest PE first, and no stock with a
   * positive PE left out has a lower PE than a listed one.
   */
  lemma ByPeSpec(stocks: seq<Stock>)
    ensures var r := ByPe(stocks);
      |r| <= 30
      && (forall i | 0 <= i < |r| :: r[i] in stocks && PricedByEarnings(r[i]))
      && multiset(r) <= multiset(stocks)
      && (forall i, j | 0 <= i < j < |r| :: r[i].peRatio.value <= r[j].peRatio.value)
      && (forall s | s in stocks && PricedByEarnings(s) && s !in r :: forall i | 0 <= i < |r| ::
            PricedByEarnings(r[i]) && r[i].peRatio.value <= s.peRatio.value)
  {
    var valid := Filter(stocks, PricedByEarnings);
    var r := ByPe(stocks);
    assert |r| <= 30 && (forall i | 0 <= i < |r| :: r[i] in stocks && PricedByEarnings(r[i])) by {
      TopSpec(valid, PeKey, 30);
      FilterSubset(stocks, PricedByEarnings);
      forall i | 0 <= i < |r| ensures r[i] in stocks && PricedByEarnings(r[i]) {
        assert r[i] in multiset(valid);
      }
    }
    ByPeOrdered(stocks);
    assert multiset(r) <= multiset(stocks) by {
      TopSubMultiset(valid, PeKey, 30);
      FilterSubMultiset(stocks, PricedByEarnings);
    }
    ByPeLowest(stocks);
  }

  lemma ByPeOrdered(stocks: seq<Stock>)
    ensures var r := ByPe(stocks);
      forall i, j | 0 <= i < j < |r| :: PricedByEarnings(r[i]) && PricedByEarnings(r[j]) && r[i].peRatio.value <= r[j].peRatio.value
  {
    var valid := Filter(stocks, PricedByEarnings);
    var r := ByPe(stocks);
    TopDescending(valid, PeKey, 30);
    forall i, j | 0 <= i < j < |r|
      ensures PricedByEarnings(r[i]) && PricedByEarnings(r[j]) && r[i].peRatio.value <= r[j].peRatio.value
    {
      assert r[i] in multiset(valid) && r[j] in multiset(valid) by {
        TopSpec(valid, PeKey, 30);
      }
      PeAtLeast(r[i], r[j]);
    }
  }

  /** No stock with a positive PE left out has a lower PE than a listed one. */
  lemma ByPeLowest(stocks: seq<Stock>)
    ensures var r := ByPe(stocks);
      forall s | s in stocks && PricedByEarnings(s) && s !in r :: forall i | 0 <= i < |r| ::
        PricedByEarnings(r[i]) && r[i].peRatio.value <= s.peRatio.value
  {
    var valid := Filter(stocks, PricedByEarnings);
    var r := ByPe(stocks);
    forall s, i | s in stocks && PricedByEarnings(s) && s !in r && 0 <= i < |r|
      ensures PricedByEarnings(r[i]) && r[i].peRatio.value <= s.peRatio.value
    {
      FilterKeeps(stocks, PricedByEarnings, s);
      TopAbove(valid, PeKey, 30, s);
      assert r[i] in multiset(valid) by {
        TopSpec(valid, PeKey, 30);
      }
      PeAtLeast(r[i], s);
    }
  }

  /** A PE key at least another's is a PE at most the other's. */
  lemma PeAtLeast(a: Stock, b: Stock)
    requires a.peRatio.Some? && b.peRatio.Some? && AtLeast(PeKey(a), PeKey(b))
    ensures a.peRatio.value <= b.peRatio.value
  {
  }

  /** Every stock with a positive PE is listed when there are at most 30 of them. */
  lemma ByPeComplete(stocks: seq<Stock>, k: nat)
    requires |Filter(stocks, PricedByEarnings)| <= 30 && k < |stocks| && PricedByEarnings(stocks[k])
    ensures stocks[k] in ByPe(stocks)
  {
    var valid := Filter(stocks, PricedByEarnings);
    TopSpec(valid, PeKey, 30);
    FilterKeepsOrder(stocks, PricedByEarnings);
    var idx := Kept(stocks, PricedByEarnings);
    var m :| 0 <= m < |idx| && idx[m] == k;
    assert valid[m] == stocks[k];
    assert stocks[k] in multiset(ByPe(stocks));
  }

  const FundamentalHead := ["| 代码 | 名称 | PE | PB | 营收 | 净利 |", "|---|---|---|---|---|---|"]

  function FundamentalLine(s: Stock): string
  {
    Row([s.symbol, s.name, OptFloat(s.peRatio), OptFloat(s.pbRatio), OptText(s.revenue), OptText(s.netProfit)])
  }

  /** The fundamentals table: the 30 stocks of lowest positive PE. */
  function FundamentalTable(stocks: seq<Stock>): string
  {
    Join(FundamentalHead + Map(ByPe(stocks), FundamentalLine), "\n")
  }

  /** `_format_stocks_for_fundamental` */
  method FormatFundamental(stocks: seq<Stock>) returns (text: string)
    ensures text == FundamentalTable(stocks)
  {
    text := Tabulate(FundamentalHead, ByPe(stocks), FundamentalLine);
  }

  /** `str(v).isdigit() and float(v) > 80` (ASCII digits). */
  predicate HighScore(e: (string, Value))
  {
    IsDigits(Str(e.1)) && DigitsValue(Str(e.1)) > 80
  }

  function ScoreTag(e: (string, Value)): string
  {
    e.0 + ":" + Str(e.1)
  }

  /** The scores shown for a stock: those above 80, in column order. */
  function HighScores(s: Stock): seq<(string, Value)>
  {
    Filter(s.scores, HighScore)
  }

  /** A score is shown exactly when it is a whole number above 80, and in the stock's own order. */
  lemma HighScoresSpec(s: Stock)
    ensures forall e | e in HighScores(s) :: e in s.scores && HighScore(e)
    ensures forall k | 0 <= k < |s.scores| && HighScore(s.scores[k]) :: s.scores[k] in HighScores(s)
    ensures SubsequenceOf(HighScores(s), s.scores)
  {
    FilterSubset(s.scores, HighScore);
    FilterKeepsOrder(s.scores, HighScore);
    forall k | 0 <= k < |s.scores| && HighScore(s.scores[k]) ensures s.scores[k] in HighScores(s) {
      var idx := Kept(s.scores, HighScore);
      var m :| 0 <= m < |idx| && idx[m] == k;
      assert HighScores(s)[m] == s.scores[k];
    }
    FilterSubsequence(s.scores, HighScore, Identity);
    MapIdentity(HighScores(s));
    MapIdentity(s.scores);
  }

  function Identity<T>(x: T): T { x }

  lemma MapIdentity<T>(xs: seq<T>)
    ensures Map(xs, Identity) == xs
  {
  }

  const FullHead := ["| 代码 | 名称 | 行业 | 主力净流入 | 涨跌幅 | PE | PB | 评分 |", "|---|---|---|---|---|---|---|---|"]

  function FullLine(s: Stock): string
  {
    Row([s.symbol, s.name, s.industry, FloatText(s.mainFundInflow), FloatText(s.rangeChange),
         OptFloat(s.peRatio), OptFloat(s.pbRatio), Join(Map(HighScores(s), ScoreTag), ", ")])
  }

  /** The selection table: the 50 stocks of largest inflow with their high scores. */
  function FullTable(stocks: seq<Stock>): string
  {
    Join(FullHead + Map(ByInflow(stocks, 50), FullLine), "\n")
  }

  /** `_format_stocks_full` */
  method FormatFull(stocks: seq<Stock>) returns (text: string)
    ensures text == FullTable(stocks)
  {
    text := Tabulate(FullHead, ByInflow(stocks, 50), FullLine);
  }

  // ---- select_best_stocks: from the parsed selection to recommendations ----

  /** Python's name for the type of a value, as its error messages quote it. */
  function TypeName(v: Value): string
  {
    match v
    case VNone => "NoneType"
    case VBool(_) => "bool"
    case VInt(_) => "int"
    case VFloat(_) => "float"
    case VStr(_) => "str"
    case VList(_) => "list"
    case VDict(_) => "dict"
  }

  /** The `AttributeError` of `v.get(...)` on a value that is not a dict. */
  function NoGet(v: Value): string
  {
    "'" + TypeName(v) + "' object has no attribute 'get'"
  }

  /** The `TypeError` of `for item in v` on a value that cannot be iterated. */
  function NotIterable(v: Value): string
  {
    "'" + TypeName(v) + "' object is not iterable"
  }

  /**
   * What `for item in data` hands out: a list's items, nothing for an empty
   * text or dict. A text or dict with content hands out a string first, whose
   * `.get` raises before any stock is touched, so the loop's outcome is that
   * error; numbers, booleans and `None` cannot be iterated.
   */
  function Iterated(data: Value): (r: Result<seq<Value>>)
    ensures r.Ok? <==> data.VList? || data == VStr("") || data == VDict(map[])
    ensures data.VList? ==> r == Ok(data.items)
  {
    match data
    case VList(items) => Ok(items)
    case VStr(t) => if t == "" then Ok([]) else Err(NoGet(VStr(t)))
    case VDict(e) => if e == map[] then Ok([]) else Err(NoGet(VStr("")))
    case _ => Err(NotIterable(data))
  }

  /** `next((s for s in stocks if s.symbol == symbol), None)`, as a position. */
  function Match(stocks: seq<Stock>, symbol: Value): (r: Option<nat>)
    ensures r.Some? ==> (r.value < |stocks| && symbol == VStr(stocks[r.value].symbol)
                         && forall j | 0 <= j < r.value :: symbol != VStr(stocks[j].symbol))
    ensures r.None? ==> forall j | 0 <= j < |stocks| :: symbol != VStr(stocks[j].symbol)
    decreases |stocks|
  {
    if |stocks| == 0 then None
    else if symbol == VStr(stocks[0].symbol) then Some(0)
    else
      var m := Match(stocks[1..], symbol);
      if m.None? then None else Some(m.value + 1)
  }

  /** Lists with the same symbols at the same places match alike. */
  lemma {:induction false} MatchBySymbol(a: seq<Stock>, b: seq<Stock>, symbol: Value)
    requires |a| == |b| && forall k | 0 <= k < |a| :: a[k].symbol == b[k].symbol
    ensures Match(a, symbol) == Match(b, symbol)
    decreases |a|
  {
    if |a| > 0 {
      MatchBySymbol(a[1..], b[1..], symbol);
    }
  }

  function OptNum(x: Option<real>): Value
  {
    if x.None? then VNone else VFloat(x.value)
  }

  /** The keys `select_best_stocks` writes into a matched stock's row. */
  const Figures: set<string> := {"industry", "market_cap", "range_change", "main_fund_inflow", "pe_ratio", "pb_ratio"}

  /** `stock_data.update({...})`: the stock's row with its own figures written over it. */
  function Enriched(s: Stock): (d: Dict)
    ensures d.Keys == s.rawData.Keys + Figures
    ensures d["industry"] == VStr(s.industry) && d["market_cap"] == VFloat(s.marketCap)
    ensures d["range_change"] == VFloat(s.rangeChange) && d["main_fund_inflow"] == VFloat(s.mainFundInflow)
    ensures d["pe_ratio"] == OptNum(s.peRatio) && d["pb_ratio"] == OptNum(s.pbRatio)
    ensures forall k | k in s.rawData && k !in Figures :: d[k] == s.rawData[k]
  {
    s.rawData["industry" := VStr(s.industry)]["market_cap" := VFloat(s.marketCap)]
      ["range_change" := VFloat(s.rangeChange)]["main_fund_inflow" := VFloat(s.mainFundInflow)]
      ["pe_ratio" := OptNum(s.peRatio)]["pb_ratio" := OptNum(s.pbRatio)]
  }

  /** The stock after the update: its row enriched in place. */
  function Enrich(s: Stock): (t: Stock)
    ensures t.symbol == s.symbol && t.rawData == Enriched(s)
  {
    s.(rawData := Enriched(s))
  }

  /** Enriching twice is enriching once: a second matching item finds the row as the first left it. */
  lemma EnrichIdempotent(s: Stock)
    ensures Enriched(Enrich(s)) == Enriched(s)
    ensures Enrich(Enrich(s)) == Enrich(s)
  {
    var d, e := Enriched(s), Enriched(Enrich(s));
    assert forall k | k in e :: k in d && e[k] == d[k];
    assert e == d;
  }

  /** The entries of an item that is a dict (the recommendations are built only from dicts). */
  function Entries(item: Value): Dict
  {
    if item.VDict? then item.entries else map[]
  }

  /** `item.get("symbol")` */
  function SymbolOf(item: Value): Value
  {
    Get(Entries(item), "symbol", VNone)
  }

  /** The recommendation built from one item, with the matched stock's enriched row or `{}`. */
  function RecOf(stocks: seq<Stock>, item: Value): Recommendation
  {
    var d := Entries(item);
    var m := Match(stocks, SymbolOf(item));
    Recommendation(
      Get(d, "rank", VInt(0)), SymbolOf(item), Get(d, "name", VStr("")), Get(d, "reasons", VList([])),
      Get(d, "highlights", VStr("")), Get(d, "risks", VStr("")), Get(d, "position", VStr("")),
      Get(d, "investment_period", VStr("")),
      if m.Some? then Enriched(stocks[m.value]) else map[])
  }

  /** One recommendation per item, in the items' order. */
  function Recs(stocks: seq<Stock>, items: seq<Value>): (r: seq<Recommendation>)
    ensures |r| == |items|
  {
    if |items| == 0 then []
    else Recs(stocks, items[..|items| - 1]) + [RecOf(stocks, items[|items| - 1])]
  }

  /** Some item among `items` names the stock at position `k` first. */
  predicate Touched(stocks: seq<Stock>, items: seq<Value>, k: nat)
  {
    |items| > 0
    && (Touched(stocks, items[..|items| - 1], k) || Match(stocks, SymbolOf(items[|items| - 1])) == Some(k))
  }

  /** The stocks after the items were handled: every stock an item named has its row enriched. */
  function Updated(stocks: seq<Stock>, items: seq<Value>): (r: seq<Stock>)
    ensures |r| == |stocks|
  {
    seq(|stocks|, k requires 0 <= k < |stocks| => if Touched(stocks, items, k) then Enrich(stocks[k]) else stocks[k])
  }

  /** The position of the first item that is not a dict. */
  function FirstNonDict(items: seq<Value>): (r: Option<nat>)
    ensures r.Some? ==> r.value < |items| && !items[r.value].VDict? && forall j | 0 <= j < r.value :: items[j].VDict?
    ensures r.None? ==> forall j | 0 <= j < |items| :: items[j].VDict?
    decreases |items|
  {
    if |items| == 0 then None
    else if !items[0].VDict? then Some(0)
    else
      var m := FirstNonDict(items[1..]);
      if m.None? then None else Some(m.value + 1)
  }

  /**
   * The outcome of mapping the parsed reply: the recommendations or the
   * raised error, and the stocks as the handled items left them.
   */
  function Selection(stocks: seq<Stock>, parsed: Value): (Result<seq<Recommendation>>, seq<Stock>)
  {
    if !parsed.VDict? then (Err(NoGet(parsed)), stocks)
    else
      var it := Iterated(Get(parsed.entries, "recommendations", VList([])));
      if it.Err? then (Err(it.error), stocks)
      else
        var bad := FirstNonDict(it.value);
        if bad.Some? then (Err(NoGet(it.value[bad.value])), Updated(stocks, it.value[..bad.value]))
        else (Ok(Recs(stocks, it.value)), Updated(stocks, it.value))
  }

  /** Handling one more item that names the stock at `m`, or none. */
  lemma UpdatedStep(stocks: seq<Stock>, items: seq<Value>, n: nat)
    requires n < |items|
    ensures var m := Match(stocks, SymbolOf(items[n]));
      Updated(stocks, items[..n + 1])
        == if m.Some? then Updated(stocks, items[..n])[m.value := Enrich(stocks[m.value])] else Updated(stocks, items[..n])
  {
    assert items[..n + 1][..n] == items[..n];
    var m := Match(stocks, SymbolOf(items[n]));
    var a, b := Updated(stocks, items[..n + 1]), Updated(stocks, items[..n]);
    forall k | 0 <= k < |stocks|
      ensures a[k] == if m.Some? && k == m.value then Enrich(stocks[k]) else b[k]
    {
      assert Touched(stocks, items[..n + 1], k) <==> Touched(stocks, items[..n], k) || m == Some(k);
    }
  }

  /** Item `n` meets the stocks as the earlier items left them, and finds what it would have found first. */
  lemma CurrentStock(stocks: seq<Stock>, items: seq<Value>, n: nat, cur: seq<Stock>)
    requires n < |items| && cur == Updated(stocks, items[..n])
    ensures Match(cur, SymbolOf(items[n])) == Match(stocks, SymbolOf(items[n]))
    ensures var m := Match(stocks, SymbolOf(items[n]));
      && (m.Some? ==> Enriched(cur[m.value]) == Enriched(stocks[m.value])
                      && Updated(stocks, items[..n + 1]) == cur[m.value := Enrich(cur[m.value])])
      && (m.None? ==> Updated(stocks, items[..n + 1]) == cur)
    ensures Recs(stocks, items[..n + 1]) == Recs(stocks, items[..n]) + [RecOf(stocks, items[n])]
  {
    var symbol := SymbolOf(items[n]);
    MatchBySymbol(cur, stocks, symbol);
    UpdatedStep(stocks, items, n);
    var m := Match(stocks, symbol);
    if m.Some? {
      EnrichIdempotent(stocks[m.value]);
      assert Updated(stocks, items[..n + 1]) == cur[m.value := Enrich(stocks[m.value])];
    } else {
      assert Updated(stocks, items[..n + 1]) == cur;
    }
    RecsStep(stocks, items, n);
  }

  /** The recommendations of one more item are the earlier ones plus that item's. */
  lemma RecsStep(stocks: seq<Stock>, items: seq<Value>, n: nat)
    requires n < |items|
    ensures Recs(stocks, items[..n + 1]) == Recs(stocks, items[..n]) + [RecOf(stocks, items[n])]
  {
    var prefix := items[..n + 1];
    assert prefix[..|prefix| - 1] == items[..n];
    assert prefix[|prefix| - 1] == items[n];
  }

  /** One pass of the loop on a dict item: find its stock, enrich that stock's row, build the recommendation. */
  method HandleItem(stocks: seq<Stock>, items: seq<Value>, n: nat, cur: seq<Stock>) returns (rec: Recommendation, next: seq<Stock>)
    requires n < |items| && items[n].VDict? && cur == Updated(stocks, items[..n])
    ensures rec == RecOf(stocks, items[n])
    ensures next == Updated(stocks, items[..n + 1])
    ensures Recs(stocks, items[..n + 1]) == Recs(stocks, items[..n]) + [rec]
  {
    CurrentStock(stocks, items, n, cur);
    var item := items[n].entries;
    var symbol := Get(item, "symbol", VNone);
    var m := Match(cur, symbol);
    var data: Dict := map[];
    next := cur;
    if m.Some? {
      data := Enriched(cur[m.value]);
      next := cur[m.value := cur[m.value].(rawData := data)];
    }
    rec := Recommendation(
      Get(item, "rank", VInt(0)), symbol, Get(item, "name", VStr("")), Get(item, "reasons", VList([])),
      Get(item, "highlights", VStr("")), Get(item, "risks", VStr("")), Get(item, "position", VStr("")),
      Get(item, "investment_period", VStr("")), data);
  }

  /** The loop over the selected items, once they could be iterated. */
  method SelectItems(stocks: seq<Stock>, items: seq<Value>) returns (r: Result<seq<Recommendation>>, updated: seq<Stock>)
    ensures var bad := FirstNonDict(items);
      && (bad.Some? ==> r == Err(NoGet(items[bad.value])) && updated == Updated(stocks, items[..bad.value]))
      && (bad.None? ==> r == Ok(Recs(stocks, items)) && updated == Updated(stocks, items))
  {
    var n, recs, cur := HandleDicts(stocks, items);
    if n < |items| {
      FirstNonDictAt(items, n);
      return Err(NoGet(items[n])), cur;
    }
    assert items[..|items|] == items;
    return Ok(recs), cur;
  }

  /** The loop runs over the items up to the first one that is not a dict. */
  method HandleDicts(stocks: seq<Stock>, items: seq<Value>) returns (n: nat, recs: seq<Recommendation>, cur: seq<Stock>)
    ensures n <= |items| && (n < |items| ==> !items[n].VDict?)
    ensures forall j | 0 <= j < n :: items[j].VDict?
    ensures cur == Updated(stocks, items[..n]) && recs == Recs(stocks, items[..n])
  {
    cur, recs, n := stocks, [], 0;
    assert Updated(stocks, items[..0]) == stocks;
    while n < |items| && items[n].VDict?
      invariant n <= |items|
      invariant forall j | 0 <= j < n :: items[j].VDict?
      invariant cur == Updated(stocks, items[..n])
      invariant recs == Recs(stocks, items[..n])
    {
      var rec;
      rec, cur := HandleItem(stocks, items, n, cur);
      recs := recs + [rec];
      n := n + 1;
    }
  }

  /** The first item that is not a dict is the one after a run of dicts. */
  lemma FirstNonDictAt(items: seq<Value>, n: nat)
    requires n < |items| && !items[n].VDict? && forall j | 0 <= j < n :: items[j].VDict?
    ensures FirstNonDict(items) == Some(n)
  {
  }

  /** `select_best_stocks` after the reply was parsed: `result.get("recommendations", [])` and the loop. */
  method SelectBest(stocks: seq<Stock>, parsed: Value) returns (r: Result<seq<Recommendation>>, updated: seq<Stock>)
    ensures (r, updated) == Selection(stocks, parsed)
  {
    if !parsed.VDict? {
      return Err(NoGet(parsed)), stocks;
    }
    var it := Iterated(Get(parsed.entries, "recommendations", VList([])));
    if it.Err? {
      return Err(it.error), stocks;
    }
    r, updated := SelectItems(stocks, it.value);
  }

  // ---- the analyst calls ----

  /**
   * The chat calls the analyzer makes, each with what it fills into its
   * prompt template; the stocks go in as the text `StocksText` renders.
   */
  datatype Call =
    | FundFlowCall(summary: string, stocks: seq<Stock>)
    | IndustryCall(summary: string, stocks: seq<Stock>)
    | FundamentalCall(summary: string, stocks: seq<Stock>)
    | SelectionCall(n: int, stocks: seq<Stock>, fundAnalysis: string, industryAnalysis: string, fundamentalAnalysis: string)

  /** The stocks' text a call's prompt holds: the table or industry text its writer produces. */
  function StocksText(c: Call): string
  {
    match c
    case FundFlowCall(_, stocks) => FundTable(stocks)
    case IndustryCall(_, stocks) => IndustryText(stocks)
    case FundamentalCall(_, stocks) => FundamentalTable(stocks)
    case SelectionCall(_, stocks, _, _, _) => FullTable(stocks)
  }

  /** The temperature a call is sent with: lower for the structured selection. */
  function Temperature(c: Call): real
  {
    if c.SelectionCall? then 0.3 else 0.7
  }

  /**
   * `DeepSeekClient.call_api` as an oracle: the reply to the n-th call is
   * `respond(n, call)`. The client never raises: a failed request comes back
   * as a text, so every reply is a string.
   */
  class Client {
    const respond: (nat, Call) -> string
    var log: seq<Call>

    constructor (respond: (nat, Call) -> string)
      ensures this.respond == respond && log == []
    {
      this.respond := respond;
      log := [];
    }

    /** The reply the next call `c` gets. */
    function Reply(c: Call): string
      reads this
    {
      respond(|log|, c)
    }

    /** One call out with its prompt, one reply back. */
    method CallApi(c: Call, stocksText: string) returns (reply: string)
      requires stocksText == StocksText(c)
      modifies this
      ensures log == old(log) + [c]
      ensures reply == old(Reply(c))
    {
      reply := respond(|log|, c);
      log := log + [c];
    }
  }

  /** What `select_best_stocks` returns for a reply: the parse error, or the mapped selection. */
  function SelectionOutcome(stocks: seq<Stock>, reply: string, decode: string -> Result<Value>): (Result<seq<Recommendation>>, seq<Stock>)
  {
    var parsed := Parsed(reply, decode);
    if parsed.Err? then (Err(parsed.error), stocks) else Selection(stocks, parsed.value)
  }

  /** `DeepSeekMainForceAIAnalyzer` over a client; `decode` is `json.loads`. */
  class Analyzer {
    const client: Client
    const decode: string -> Result<Value>

    constructor (client: Client, decode: string -> Result<Value>)
      ensures this.client == client && this.decode == decode
    {
      this.client := client;
      this.decode := decode;
    }

    /** `analyze_fund_flow`: one call with the summary and the inflow table. */
    method AnalyzeFundFlow(stocks: seq<Stock>, summary: string) returns (reply: string)
      modifies client
      ensures client.log == old(client.log) + [FundFlowCall(summary, stocks)]
      ensures reply == old(client.Reply(FundFlowCall(summary, stocks)))
    {
      var table := FormatFund(stocks);
      reply := client.CallApi(FundFlowCall(summary, stocks), table);
    }

    /** `analyze_industry`: one call with the summary and the industry text. */
    method AnalyzeIndustry(stocks: seq<Stock>, summary: string) returns (reply: string)
      modifies client
      ensures client.log == old(client.log) + [IndustryCall(summary, stocks)]
      ensures reply == old(client.Reply(IndustryCall(summary, stocks)))
    {
      var text := FormatIndustry(stocks);
      reply := client.CallApi(IndustryCall(summary, stocks), text);
    }

    /** `analyze_fundamental`: one call with the summary and the PE table. */
    method AnalyzeFundamental(stocks: seq<Stock>, summary: string) returns (reply: string)
      modifies client
      ensures client.log == old(client.log) + [FundamentalCall(summary, stocks)]
      ensures reply == old(client.Reply(FundamentalCall(summary, stocks)))
    {
      var table := FormatFundamental(stocks);
      reply := client.CallApi(FundamentalCall(summary, stocks), table);
    }

    /**
     * `select_best_stocks`: one call with the full table and the three
     * analyses, then the reply parsed and mapped; the stocks come back with
     * the rows of the selected ones enriched.
     */
    method SelectBestStocks(stocks: seq<Stock>, fund: string, industry: string, fundamental: string, n: int)
      returns (r: Result<seq<Recommendation>>, updated: seq<Stock>)
      modifies client
      ensures var c := SelectionCall(n, stocks, fund, industry, fundamental);
        && client.log == old(client.log) + [c]
        && (r, updated) == SelectionOutcome(stocks, old(client.Reply(c)), decode)
    {
      var table := FormatFull(stocks);
      var reply := client.CallApi(SelectionCall(n, stocks, fund, industry, fundamental), table);
      var parsed := ParseJsonResponse(reply, decode);
      if parsed.Err? {
        return Err(parsed.error), stocks;
      }
      r, updated := SelectBest(stocks, parsed.value);
    }
  }

  /** A reply whose selection is not a dict, or holds no list, never yields recommendations. */
  lemma SelectionErrors(stocks: seq<Stock>, parsed: Value)
    ensures !parsed.VDict? ==> Selection(stocks, parsed) == (Err(NoGet(parsed)), stocks)
    ensures parsed.VDict? && "recommendations" !in parsed.entries ==> Selection(stocks, parsed) == (Ok([]), stocks)
  {
    if parsed.VDict? && "recommendations" !in parsed.entries {
      assert Updated(stocks, []) == stocks;
    }
  }

  /**
   * The i-th recommendation of a successful selection: built from the i-th
   * item; when its symbol names a stock it carries that stock's row with the
   * stock's figures, and that stock comes back enriched; otherwise it
   * carries `{}`.
   */
  lemma SelectionSpec(stocks: seq<Stock>, parsed: Value, i: nat)
    requires Selection(stocks, parsed).0.Ok? && i < |Selection(stocks, parsed).0.value|
    ensures parsed.VDict?
    ensures var (r, updated) := Selection(stocks, parsed);
      var rec := r.value[i];
      var m := Match(stocks, rec.symbol);
      && (m.Some? ==> rec.stockData == Enriched(stocks[m.value])
                      && rec.stockData["industry"] == VStr(stocks[m.value].industry)
                      && updated[m.value] == Enrich(stocks[m.value]))
      && (m.None? ==> rec.stockData == map[])
  {
    var items := Iterated(Get(parsed.entries, "recommendations", VList([]))).value;
    RecsAt(stocks, items, i);
    if Match(stocks, SymbolOf(items[i])).Some? {
      TouchedBy(stocks, items, i);
    }
  }

  /** The i-th recommendation is built from the i-th item. */
  lemma {:induction false} RecsAt(stocks: seq<Stock>, items: seq<Value>, i: nat)
    requires i < |items|
    ensures Recs(stocks, items)[i] == RecOf(stocks, items[i])
    decreases |items|
  {
    if i < |items| - 1 {
      var init := items[..|items| - 1];
      RecsAt(stocks, init, i);
    }
  }

  /** The stock an item names is touched by every list holding that item. */
  lemma {:induction false} TouchedBy(stocks: seq<Stock>, items: seq<Value>, i: nat)
    requires i < |items| && Match(stocks, SymbolOf(items[i])).Some?
    ensures Touched(stocks, items, Match(stocks, SymbolOf(items[i])).value)
    decreases |items|
  {
    if i < |items| - 1 {
      var init := items[..|items| - 1];
      TouchedBy(stocks, init, i);
    }
  }
}
