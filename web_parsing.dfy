/**
 * The web layer's number extraction: currency marks are dropped, then the
 * runs matching `\d+\.?\d*` are read as floats. A sign is never part of a
 * run, so every extracted number is non-negative. Only ASCII digits count
 * as digits.
 */
module WebParsing {
  import opened Wrappers
  import opened Strings
  import opened Numbers

  /** The characters `_clean_numeric_text` deletes. */
  predicate IsCurrencyMark(c: char) { c == '¥' || c == '元' || c == '$' }

  /** `s.replace(a, "")` keeps every other character. */
  lemma {:induction false} RemoveCharKeeps(s: string, a: char, c: char)
    requires c in s && c != a
    ensures c in RemoveChar(s, a)
  {
    if s[0] != c {
      assert c in s[1..];
      RemoveCharKeeps(s[1..], a, c);
    }
  }

  /** `s.strip()` keeps every non-whitespace character. */
  lemma StripKeeps(s: string, c: char)
    requires c in s && !IsSpace(c)
    ensures c in Strip(s)
  {
    var a := LeadingSpaces(s);
    var t := s[a..];
    var b := TrailingSpaces(t);
    var i :| 0 <= i < |s| && s[i] == c;
    assert i >= a;
    assert t[i - a] == c;
    assert i - a < |t| - b;
    assert Strip(s)[i - a] == c;
  }

  /** Every character of `s.strip()` is a character of `s`. */
  lemma StripFrom(s: string, c: char)
    requires c in Strip(s)
    ensures c in s
  {
    var a := LeadingSpaces(s);
    var t := s[a..];
    var i :| 0 <= i < |Strip(s)| && Strip(s)[i] == c;
    assert t[i] == c;
    assert s[a + i] == c;
  }

  /** `_clean_numeric_text`: the currency marks deleted, then `strip()`. */
  function CleanNumericText(s: string): string
  {
    Strip(RemoveChar(RemoveChar(RemoveChar(s, '¥'), '元'), '$'))
  }

  /**
   * Cleaning leaves no currency mark and no surrounding whitespace, adds no
   * character, and keeps every other non-whitespace character.
   */
  lemma CleanSpec(s: string, c: char)
    ensures c in CleanNumericText(s) ==> c in s && !IsCurrencyMark(c)
    ensures c in s && !IsCurrencyMark(c) && !IsSpace(c) ==> c in CleanNumericText(s)
    ensures var r := CleanNumericText(s); r == [] || (!IsSpace(r[0]) && !IsSpace(r[|r| - 1]))
  {
    var t1 := RemoveChar(s, '¥');
    var t2 := RemoveChar(t1, '元');
    var t := RemoveChar(t2, '$');
    StripSpec(t);
    if c in Strip(t) {
      StripFrom(t, c);
    }
    if c in s && !IsCurrencyMark(c) && !IsSpace(c) {
      RemoveCharKeeps(s, '¥', c);
      RemoveCharKeeps(t1, '元', c);
      RemoveCharKeeps(t2, '$', c);
      StripKeeps(t, c);
    }
  }

  /** The number of digits `s` starts with. */
  function DigitRun(s: string): (n: nat)
    ensures n <= |s| && (n == |s| || !IsDigit(s[n]))
    ensures forall i :: 0 <= i < n ==> IsDigit(s[i])
  {
    if |s| > 0 && IsDigit(s[0]) then 1 + DigitRun(s[1..]) else 0
  }

  /** The length of the `\d+\.?\d*` match at the start of `s`, which starts with a digit. */
  function MatchLen(s: string): (n: nat)
    requires |s| > 0 && IsDigit(s[0])
    ensures 1 <= n <= |s|
  {
    var d := DigitRun(s);
    if d < |s| && s[d] == '.' then d + 1 + DigitRun(s[d + 1..]) else d
  }

  /** `re.findall(r"\d+\.?\d*", s)`: the leftmost non-overlapping matches, in order. */
  function Runs(s: string): seq<string>
    decreases |s|
  {
    if |s| == 0 then []
    else if !IsDigit(s[0]) then Runs(s[1..])
    else
      var n := MatchLen(s);
      [s[..n]] + Runs(s[n..])
  }

  predicate HasDigit(s: string) { exists i :: 0 <= i < |s| && IsDigit(s[i]) }

  /** There is a match exactly when there is a digit. */
  lemma {:induction false} RunsIffDigit(s: string)
    ensures Runs(s) != [] <==> HasDigit(s)
    decreases |s|
  {
    if |s| > 0 && !IsDigit(s[0]) {
      RunsIffDigit(s[1..]);
      if HasDigit(s[1..]) {
        var i :| 0 <= i < |s[1..]| && IsDigit(s[1..][i]);
        assert IsDigit(s[i + 1]);
      }
      if HasDigit(s) {
        var i :| 0 <= i < |s| && IsDigit(s[i]);
        assert IsDigit(s[1..][i - 1]);
      }
    } else if |s| > 0 {
      assert IsDigit(s[0]);
    }
  }

  /** A decimal body with nothing to strip reads back through `float()`, as a non-negative number. */
  lemma BodyParses(b: string)
    requires IsDecimalBody(b) && IsDigit(b[0]) && !IsSpace(b[|b| - 1])
    ensures ParseDecimal(b).Some? && ParseDecimal(b).value >= 0.0
  {
    assert !IsSpace(b[0]) && !HasSign(b);
    StripTrimmed(b);
  }

  /** A match with a point: digits, '.', digits. */
  lemma {:induction false} PointMatchIsBody(s: string)
    requires |s| > 0 && IsDigit(s[0])
    requires DigitRun(s) < |s| && s[DigitRun(s)] == '.'
    ensures IsDecimalBody(s[..MatchLen(s)])
  {
    var d := DigitRun(s);
    var rest := s[d + 1..];
    var e := DigitRun(rest);
    assert MatchLen(s) == d + 1 + e;
    forall i | d + 1 <= i < d + 1 + e
      ensures IsDigit(s[i])
    {
      assert s[i] == rest[i - (d + 1)];
    }
    DotBody(s, d, e);
  }

  /** Digits, a '.' at `d` and `e` more digits make a decimal body. */
  lemma DotBody(s: string, d: nat, e: nat)
    requires 0 < d && d + 1 + e <= |s| && s[d] == '.'
    requires forall i :: 0 <= i < d ==> IsDigit(s[i])
    requires forall i :: d + 1 <= i < d + 1 + e ==> IsDigit(s[i])
    ensures IsDecimalBody(s[..d + 1 + e])
  {
    var b := s[..d + 1 + e];
    var head, tail := b[..d], b[d + 1..];
    forall k | 0 <= k < |head|
      ensures IsDigit(head[k])
    {
      assert head[k] == s[k];
    }
    forall k | 0 <= k < |tail|
      ensures IsDigit(tail[k])
    {
      assert tail[k] == s[d + 1 + k];
    }
    FirstDot(b, d);
  }

  /** The first '.' of `b` is at `d` when `b` starts with `d` digits followed by '.'. */
  lemma FirstDot(b: string, d: nat)
    requires d < |b| && b[d] == '.' && AllDigits(b[..d])
    ensures Find(b, '.') == d
  {
    forall k | 0 <= k < d
      ensures b[k] != '.'
    {
      assert b[..d][k] == b[k];
    }
  }

  /** Every match reads back through `float()`, as a non-negative number. */
  lemma MatchParses(s: string)
    requires |s| > 0 && IsDigit(s[0])
    ensures ParseDecimal(s[..MatchLen(s)]).Some? && ParseDecimal(s[..MatchLen(s)]).value >= 0.0
  {
    var n := MatchLen(s);
    var b := s[..n];
    var d := DigitRun(s);
    if d < |s| && s[d] == '.' {
      var e := DigitRun(s[d + 1..]);
      PointMatchIsBody(s);
      assert !IsSpace(b[|b| - 1]) by {
        if e == 0 { assert b[|b| - 1] == '.'; } else { assert b[|b| - 1] == s[d + 1..][e - 1]; }
      }
    } else {
      assert n == d && AllDigits(b);
      assert IsDigit(b[|b| - 1]);
      DigitsBody(b);
    }
    BodyParses(b);
  }

  /** Every match reads back through `float()`. */
  lemma {:induction false} RunsParse(s: string)
    ensures forall k :: 0 <= k < |Runs(s)| ==> ParseDecimal(Runs(s)[k]).Some? && ParseDecimal(Runs(s)[k]).value >= 0.0
    decreases |s|
  {
    if |s| > 0 {
      if !IsDigit(s[0]) {
        RunsParse(s[1..]);
        assert Runs(s) == Runs(s[1..]);
      } else {
        var n := MatchLen(s);
        var rest := Runs(s[n..]);
        assert Runs(s) == [s[..n]] + rest;
        MatchParses(s);
        RunsParse(s[n..]);
        forall k | 0 <= k < |Runs(s)|
          ensures ParseDecimal(Runs(s)[k]).Some? && ParseDecimal(Runs(s)[k]).value >= 0.0
        {
          if k > 0 {
            assert Runs(s)[k] == rest[k - 1];
          }
        }
      }
    }
  }

  /** `extract_first_float`: the first match read as a float, or `None` without a match. */
  function ExtractFirstFloat(value: string): (r: Option<real>)
  {
    var m := Runs(CleanNumericText(value));
    if |m| == 0 then None else ParseDecimal(m[0])
  }

  /**
   * A number comes out exactly when the text holds a digit, and it is never
   * negative: a sign is not part of a match.
   */
  lemma FirstFloatSpec(value: string)
    ensures ExtractFirstFloat(value).Some? <==> HasDigit(value)
    ensures ExtractFirstFloat(value).Some? ==> ExtractFirstFloat(value).value >= 0.0
  {
    var t := CleanNumericText(value);
    CleanKeepsDigits(value);
    RunsIffDigit(t);
    RunsParse(t);
  }

  /** Cleaning neither adds nor removes digits. */
  lemma CleanKeepsDigits(value: string)
    ensures HasDigit(CleanNumericText(value)) <==> HasDigit(value)
  {
    if HasDigit(value) {
      var i :| 0 <= i < |value| && IsDigit(value[i]);
      DigitSurvives(value, i);
    }
    if HasDigit(CleanNumericText(value)) {
      var j :| 0 <= j < |CleanNumericText(value)| && IsDigit(CleanNumericText(value)[j]);
      DigitFrom(value, j);
    }
  }

  lemma DigitSurvives(value: string, i: nat)
    requires i < |value| && IsDigit(value[i])
    ensures HasDigit(CleanNumericText(value))
  {
    var c := value[i];
    CleanSpec(value, c);
    var t := CleanNumericText(value);
    var j :| 0 <= j < |t| && t[j] == c;
  }

  lemma DigitFrom(value: string, j: nat)
    requires j < |CleanNumericText(value)| && IsDigit(CleanNumericText(value)[j])
    ensures HasDigit(value)
  {
    var c := CleanNumericText(value)[j];
    CleanSpec(value, c);
    var i :| 0 <= i < |value| && value[i] == c;
  }

  /** A run of digits is one whole match. */
  lemma DigitsOneRun(d: string)
    requires IsDigits(d)
    ensures Runs(d) == [d]
  {
    assert DigitRun(d) == |d|;
    assert d[..|d|] == d && d[|d|..] == [];
  }

  /** A minus sign is ignored: "-" followed by digits reads as the digits' positive value, so "-5" reads as 5.0. */
  lemma MinusIgnored(d: string)
    requires IsDigits(d)
    ensures ExtractFirstFloat("-" + d) == Some(DigitsValue(d) as real)
  {
    var s := "-" + d;
    assert forall i :: 0 <= i < |s| ==> s[i] == '-' || IsDigit(s[i]);
    assert RemoveChar(s, '¥') == s;
    assert RemoveChar(s, '元') == s;
    assert RemoveChar(s, '$') == s;
    NegativeDigitsTrimmed(d);
    assert CleanNumericText(s) == s;
    assert s[1..] == d;
    DigitsOneRun(d);
    ParseDigits(d);
  }

  /** The separators `extract_float_range` tries, in order. */
  const Seps: seq<char> := ['-', '~', '至', '到']

  /** The separator loop: the first separator present that splits the text into exactly two non-blank parts. */
  function SplitRange(text: string, seps: seq<char>): (r: (Option<real>, Option<real>))
  {
    if |seps| == 0 then (None, None)
    else if seps[0] in text then
      var parts := StrippedNonBlank(Split(text, seps[0]));
      if |parts| == 2 then (ExtractFirstFloat(parts[0]), ExtractFirstFloat(parts[1]))
      else SplitRange(text, seps[1..])
    else SplitRange(text, seps[1..])
  }

  /** `extract_float_range`: the first two matches, else a split on a separator, else nothing. */
  function ExtractFloatRange(value: string): (r: (Option<real>, Option<real>))
  {
    var text := CleanNumericText(value);
    var m := Runs(text);
    if |m| >= 2 then
      var lo := ParseDecimal(m[0]);
      var hi := ParseDecimal(m[1]);
      if lo.Some? && hi.Some? then (lo, hi) else (None, None)
    else SplitRange(text, Seps)
  }

  /** A character that ends any match. */
  predicate Breaks(c: char) { !IsDigit(c) && c != '.' }

  lemma {:induction false} DigitRunBreak(a: string, c: char, b: string)
    requires !IsDigit(c)
    ensures DigitRun(a + [c] + b) == DigitRun(a)
  {
    if |a| > 0 && IsDigit(a[0]) {
      assert (a + [c] + b)[1..] == a[1..] + [c] + b;
      DigitRunBreak(a[1..], c, b);
    }
  }

  lemma MatchLenBreak(a: string, c: char, b: string)
    requires |a| > 0 && IsDigit(a[0]) && Breaks(c)
    ensures MatchLen(a + [c] + b) == MatchLen(a)
  {
    var s := a + [c] + b;
    DigitRunBreak(a, c, b);
    var d := DigitRun(a);
    if d < |a| && a[d] == '.' {
      assert s[d] == '.';
      assert s[d + 1..] == a[d + 1..] + [c] + b;
      DigitRunBreak(a[d + 1..], c, b);
    } else if d == |a| {
      assert s[d] == c;
    }
  }

  /** A breaking character splits the matches of a text into those before and after it. */
  lemma {:induction false} RunsBreak(a: string, c: char, b: string)
    requires Breaks(c)
    ensures Runs(a + [c] + b) == Runs(a) + Runs(b)
    decreases |a|, 1
  {
    var s := a + [c] + b;
    if |a| == 0 {
      assert s == [c] + b && s[1..] == b;
    } else if !IsDigit(a[0]) {
      RunsBreakSkip(a, c, b);
    } else {
      RunsBreakMatch(a, c, b);
    }
  }

  /** The step of `RunsBreak` over a leading character that starts no match. */
  lemma {:induction false} RunsBreakSkip(a: string, c: char, b: string)
    requires Breaks(c) && |a| > 0 && !IsDigit(a[0])
    ensures Runs(a + [c] + b) == Runs(a) + Runs(b)
    decreases |a|, 0
  {
    var s := a + [c] + b;
    assert s[0] == a[0];
    assert s[1..] == a[1..] + [c] + b;
    RunsBreak(a[1..], c, b);
  }

  /** The step of `RunsBreak` over the match at the start. */
  lemma {:induction false} RunsBreakMatch(a: string, c: char, b: string)
    requires Breaks(c) && |a| > 0 && IsDigit(a[0])
    ensures Runs(a + [c] + b) == Runs(a) + Runs(b)
    decreases |a|, 0
  {
    var s := a + [c] + b;
    MatchLenBreak(a, c, b);
    var n := MatchLen(a);
    var rest := a[n..];
    BreakSlices(a, c, b, n);
    var x := rest + [c] + b;
    RunsAtMatch(s);
    RunsAtMatch(a);
    RunsBreak(rest, c, b);
    ConsRegroup(Runs(s), Runs(a), Runs(x), Runs(rest), Runs(b), a[..n]);
  }

  /** `[h] + (t + u)` is `([h] + t) + u`, with each part named. */
  lemma ConsRegroup<T>(whole: seq<T>, left: seq<T>, x: seq<T>, tail: seq<T>, after: seq<T>, h: T)
    requires whole == [h] + x && left == [h] + tail && x == tail + after
    ensures whole == left + after
  {
  }

  /** Cutting `a + [c] + b` inside `a`. */
  lemma BreakSlices(a: string, c: char, b: string, n: nat)
    requires 0 < n <= |a|
    ensures (a + [c] + b)[0] == a[0]
    ensures (a + [c] + b)[..n] == a[..n] && (a + [c] + b)[n..] == a[n..] + [c] + b
  {
  }

  /** The matches of a text that starts with a digit: the match there, then the matches after it. */
  lemma RunsAtMatch(s: string)
    requires |s| > 0 && IsDigit(s[0])
    ensures Runs(s) == [s[..MatchLen(s)]] + Runs(s[MatchLen(s)..])
  {
  }

  /** The total number of matches in a list of texts. */
  function RunCount(ps: seq<string>): nat
  {
    if |ps| == 0 then 0 else |Runs(ps[0])| + RunCount(ps[1..])
  }

  lemma {:induction false} RunsJoin(ps: seq<string>, sep: char)
    requires Breaks(sep)
    ensures |Runs(Join(ps, [sep]))| == RunCount(ps)
  {
    if |ps| == 1 {
      assert RunCount(ps) == |Runs(ps[0])| + RunCount(ps[1..]);
    } else if |ps| > 1 {
      RunsJoin(ps[1..], sep);
      RunsBreak(ps[0], sep, Join(ps[1..], [sep]));
      assert Join(ps, [sep]) == ps[0] + [sep] + Join(ps[1..], [sep]);
    }
  }

  /** A text without digits has no matches. */
  lemma NoDigitNoRuns(s: string)
    requires !HasDigit(s)
    ensures Runs(s) == []
  {
    RunsIffDigit(s);
  }

  lemma {:induction false} RunsDropLeading(s: string, a: nat)
    requires a <= |s| && forall i :: 0 <= i < a ==> !IsDigit(s[i])
    ensures Runs(s) == Runs(s[a..])
  {
    if a > 0 {
      assert s[1..][a - 1..] == s[a..];
      RunsDropLeading(s[1..], a - 1);
    }
  }

  /** Dropping trailing characters that are not digits keeps the matches, when the first of them breaks a match. */
  lemma RunsDropTrailing(t: string, k: nat)
    requires k <= |t| && forall i :: k <= i < |t| ==> !IsDigit(t[i])
    requires k < |t| ==> Breaks(t[k])
    ensures Runs(t) == Runs(t[..k])
  {
    if k < |t| {
      var u := t[..k];
      var rest := t[k + 1..];
      assert t == u + [t[k]] + rest;
      RunsBreak(u, t[k], rest);
      assert !HasDigit(rest) by {
        forall i | 0 <= i < |rest| ensures !IsDigit(rest[i]) { assert rest[i] == t[k + 1 + i]; }
      }
      NoDigitNoRuns(rest);
      assert Runs(t) == Runs(u) + [];
    } else {
      assert t[..k] == t;
    }
  }

  /** Stripping whitespace keeps the matches. */
  lemma RunsStrip(s: string)
    ensures Runs(Strip(s)) == Runs(s)
  {
    var a := LeadingSpaces(s);
    var t := s[a..];
    var b := TrailingSpaces(t);
    RunsDropLeading(s, a);
    RunsDropTrailing(t, |t| - b);
    assert Strip(s) == t[..|t| - b];
  }

  /** Dropping blank parts and stripping the rest keeps the matches. */
  lemma {:induction false} RunCountStripped(ps: seq<string>)
    ensures RunCount(StrippedNonBlank(ps)) == RunCount(ps)
  {
    if |ps| > 0 {
      RunCountStripped(ps[1..]);
      var p := Strip(ps[0]);
      RunsStrip(ps[0]);
      var rest := StrippedNonBlank(ps[1..]);
      if p != "" {
        assert StrippedNonBlank(ps) == [p] + rest;
        assert ([p] + rest)[1..] == rest;
      } else {
        assert StrippedNonBlank(ps) == rest;
      }
    }
  }

  /** A part that yields a number holds a match of its own. */
  lemma FirstFloatHasRun(x: string)
    requires ExtractFirstFloat(x).Some?
    ensures |Runs(x)| >= 1
  {
    FirstFloatSpec(x);
    RunsIffDigit(x);
  }

  lemma {:induction false} SplitRangeBoth(text: string, seps: seq<char>)
    requires forall k :: 0 <= k < |seps| ==> Breaks(seps[k])
    requires SplitRange(text, seps).0.Some? && SplitRange(text, seps).1.Some?
    ensures |Runs(text)| >= 2
  {
    var sep := seps[0];
    if sep in text && |StrippedNonBlank(Split(text, sep))| == 2 {
      var ps := Split(text, sep);
      var parts := StrippedNonBlank(ps);
      FirstFloatHasRun(parts[0]);
      FirstFloatHasRun(parts[1]);
      assert RunCount(parts) == |Runs(parts[0])| + (|Runs(parts[1])| + RunCount(parts[2..]));
      RunCountStripped(ps);
      JoinSplit(text, sep);
      RunsJoin(ps, sep);
    } else {
      SplitRangeBoth(text, seps[1..]);
    }
  }

  /**
   * Both ends come out exactly when the cleaned text holds two matches, and
   * then the lower end is what `extract_first_float` reads.
   */
  lemma FloatRangeSpec(value: string)
    ensures var r := ExtractFloatRange(value);
      r.0.Some? && r.1.Some? <==> |Runs(CleanNumericText(value))| >= 2
    ensures |Runs(CleanNumericText(value))| >= 2 ==> ExtractFloatRange(value).0 == ExtractFirstFloat(value)
  {
    var text := CleanNumericText(value);
    if |Runs(text)| >= 2 {
      RangeFromTwoRuns(text);
    } else {
      RangeNeedsTwoRuns(text);
    }
  }

  /** With two matches, the range is the first two read as floats. */
  lemma RangeFromTwoRuns(text: string)
    requires |Runs(text)| >= 2
    ensures var lo, hi := ParseDecimal(Runs(text)[0]), ParseDecimal(Runs(text)[1]);
      lo.Some? && hi.Some? && lo.value >= 0.0 && hi.value >= 0.0
  {
    RunsParse(text);
  }

  /** The separators all break matches. */
  lemma SepsBreak()
    ensures forall k :: 0 <= k < |Seps| ==> Breaks(Seps[k])
  {
  }

  /** Fewer than two matches never give both ends. */
  lemma RangeNeedsTwoRuns(text: string)
    requires |Runs(text)| < 2
    ensures var r := SplitRange(text, Seps); r.0.None? || r.1.None?
  {
    var r := SplitRange(text, Seps);
    if r.0.Some? && r.1.Some? {
      SepsBreak();
      SplitRangeBoth(text, Seps);
    }
  }

  /** Without two matches and without any separator, nothing comes out. */
  lemma {:induction false} NoSeparatorNoRange(value: string)
    requires var text := CleanNumericText(value);
      |Runs(text)| < 2 && forall k :: 0 <= k < |Seps| ==> Seps[k] !in text
    ensures ExtractFloatRange(value) == (None, None)
  {
    var text := CleanNumericText(value);
    assert SplitRange(text, Seps[3..]) == (None, None);
    assert SplitRange(text, Seps[2..]) == SplitRange(text, Seps[3..]);
    assert SplitRange(text, Seps[1..]) == SplitRange(text, Seps[2..]);
  }
}
