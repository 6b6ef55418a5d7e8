/**
 * `parse_stock_list`, the batch-input parser of the web layer: the input
 * is stripped and cut into lines; a line with a comma is cut on commas,
 * else a line with a space on whitespace, else it is one code; the pieces
 * are stripped, blanks dropped, and repeated codes dropped after their
 * first occurrence. The web services module carries a character-for-
 * character copy of the same function, so one model serves both.
 */
module StockList {
  import opened Strings

  // ---- substrings ----

  /** A slice of `s` occurs in `s`. */
  lemma SliceContained(s: string, i: nat, j: nat)
    requires i <= j <= |s|
    ensures Contains(s, s[i..j])
  {
    assert OccursAt(s, s[i..j], i);
  }

  /** Occurring in is transitive. */
  lemma ContainsTrans(s: string, p: string, q: string)
    requires Contains(s, p) && Contains(p, q)
    ensures Contains(s, q)
  {
    var i :| 0 <= i <= |s| && OccursAt(s, p, i);
    var j :| 0 <= j <= |p| && OccursAt(p, q, j);
    assert forall x | 0 <= x < |p| :: s[i + x] == s[i..i + |p|][x] == p[x];
    assert s[i + j..i + j + |q|] == p[j..j + |q|];
    assert OccursAt(s, q, i + j);
  }

  /** A character of a text that occurs in `s` is a character of `s`. */
  lemma ContainedChars(s: string, p: string, c: char)
    requires Contains(s, p) && c in p
    ensures c in s
  {
    var i :| 0 <= i <= |s| && OccursAt(s, p, i);
    var k :| 0 <= k < |p| && p[k] == c;
    assert s[i + k] == p[k];
  }

  /** `strip()` returns a slice of its input. */
  lemma StripContained(s: string)
    ensures Contains(s, Strip(s))
  {
    var a := LeadingSpaces(s);
    var t := s[a..];
    var b := TrailingSpaces(t);
    assert Strip(s) == s[a..|s| - b];
    SliceContained(s, a, |s| - b);
  }

  /** `strip()` is idempotent. */
  lemma StripIdempotent(s: string)
    ensures Strip(Strip(s)) == Strip(s)
  {
    StripSpec(s);
    StripTrimmed(Strip(s));
  }

  /** Every piece of `s.split(c)` occurs in `s`. */
  lemma {:induction false} SplitContained(s: string, c: char)
    ensures forall k | 0 <= k < |Split(s, c)| :: Contains(s, Split(s, c)[k])
  {
    if |s| == 0 {
      assert Split(s, c) == [""];
      SliceContained(s, 0, 0);
    } else {
      var rest := Split(s[1..], c);
      SplitContained(s[1..], c);
      SliceContained(s, 1, |s|);
      assert s[1..|s|] == s[1..];
      forall k | 0 <= k < |Split(s, c)|
        ensures Contains(s, Split(s, c)[k])
      {
        if s[0] == c {
          if k == 0 {
            SliceContained(s, 0, 0);
          } else {
            assert Split(s, c)[k] == rest[k - 1];
            ContainsTrans(s, s[1..], rest[k - 1]);
          }
        } else if k == 0 {
          FirstPieceIsPrefix(s[1..], c);
          assert Split(s, c)[0] == s[..1 + |rest[0]|];
          SliceContained(s, 0, 1 + |rest[0]|);
        } else {
          assert Split(s, c)[k] == rest[k];
          ContainsTrans(s, s[1..], rest[k]);
        }
      }
    }
  }

  /** The first piece of `s.split(c)` is a prefix of `s`. */
  lemma {:induction false} FirstPieceIsPrefix(s: string, c: char)
    ensures StartsWith(s, Split(s, c)[0])
  {
    if |s| > 0 && s[0] != c {
      FirstPieceIsPrefix(s[1..], c);
    }
  }

  /** A head and the pieces of a tail that both occur in `s` give pieces that all occur in `s`. */
  lemma ConsContained(s: string, w: string, u: string, rest: seq<string>)
    requires Contains(s, w) && Contains(s, u)
    requires forall k | 0 <= k < |rest| :: Contains(u, rest[k])
    ensures forall k | 0 <= k < |[w] + rest| :: Contains(s, ([w] + rest)[k])
  {
    forall k | 0 <= k < |[w] + rest|
      ensures Contains(s, ([w] + rest)[k])
    {
      if k > 0 {
        ContainsTrans(s, u, rest[k - 1]);
      }
    }
  }

  /** Every word of `s.split()` occurs in `s`. */
  lemma {:induction false} SplitWsContained(s: string)
    ensures forall k | 0 <= k < |SplitWs(s)| :: Contains(s, SplitWs(s)[k])
    decreases |s|
  {
    var a := LeadingSpaces(s);
    var t := s[a..];
    if |t| > 0 {
      var w := Word(t);
      var u := t[|w|..];
      var rest := SplitWs(u);
      assert SplitWs(s) == [w] + rest;
      SplitWsContained(u);
      assert OccursAt(s, w, a) && OccursAt(s, u, a + |w|);
      ConsContained(s, w, u, rest);
    } else {
      assert |SplitWs(s)| == 0;
    }
  }

  /** Every part, stripped. */
  function StripAll(parts: seq<string>): (r: seq<string>)
    ensures |r| == |parts| && forall i | 0 <= i < |parts| :: r[i] == Strip(parts[i])
  {
    if |parts| == 0 then [] else [Strip(parts[0])] + StripAll(parts[1..])
  }

  /** Each result of `[p.strip() for p in parts if p.strip()]` is the stripped form of one of the parts. */
  lemma {:induction false} StrippedNonBlankFrom(parts: seq<string>)
    ensures forall x | x in StrippedNonBlank(parts) :: x in StripAll(parts)
  {
    if |parts| > 0 {
      StrippedNonBlankFrom(parts[1..]);
      assert StripAll(parts) == [Strip(parts[0])] + StripAll(parts[1..]);
    }
  }

  // ---- the parser ----

  /** A code as the parser emits it: non-empty, already stripped. */
  predicate Clean(code: string)
  {
    code != "" && Strip(code) == code
  }

  /** Stripping parts that occur in a line gives clean codes that occur in the line, each the stripped form of a part. */
  lemma StrippedPartsOf(line: string, parts: seq<string>)
    requires forall i | 0 <= i < |parts| :: Contains(line, parts[i])
    ensures forall k | 0 <= k < |StrippedNonBlank(parts)| ::
      Clean(StrippedNonBlank(parts)[k]) && Contains(line, StrippedNonBlank(parts)[k])
  {
    var codes := StrippedNonBlank(parts);
    StrippedNonBlankFrom(parts);
    forall k | 0 <= k < |codes|
      ensures Clean(codes[k]) && Contains(line, codes[k])
    {
      assert codes[k] in StripAll(parts);
      var i :| 0 <= i < |parts| && codes[k] == StripAll(parts)[i];
      StripIdempotent(parts[i]);
      StripContained(parts[i]);
      ContainsTrans(line, parts[i], codes[k]);
    }
  }

  /** A stripped part holds no character its part lacks. */
  lemma StrippedPartsLack(parts: seq<string>, c: char)
    requires forall i | 0 <= i < |parts| :: c !in parts[i]
    ensures forall k | 0 <= k < |StrippedNonBlank(parts)| :: c !in StrippedNonBlank(parts)[k]
  {
    var codes := StrippedNonBlank(parts);
    StrippedNonBlankFrom(parts);
    forall k | 0 <= k < |codes|
      ensures c !in codes[k]
    {
      assert codes[k] in StripAll(parts);
      var i :| 0 <= i < |parts| && codes[k] == StripAll(parts)[i];
      StripContained(parts[i]);
      if c in codes[k] {
        ContainedChars(parts[i], codes[k], c);
      }
    }
  }

  /** The codes of one stripped, non-empty line. */
  function LineCodes(line: string): (codes: seq<string>)
    requires Clean(line)
    ensures forall k | 0 <= k < |codes| :: Clean(codes[k]) && Contains(line, codes[k])
    ensures ',' in line ==> forall k | 0 <= k < |codes| :: ',' !in codes[k]
    ensures ',' !in line && ' ' in line ==> forall k | 0 <= k < |codes| :: IsWord(codes[k])
  {
    if ',' in line then
      var parts := Split(line, ',');
      SplitContained(line, ',');
      StrippedPartsOf(line, parts);
      StrippedPartsLack(parts, ',');
      StrippedNonBlank(parts)
    else if ' ' in line then
      var parts := SplitWs(line);
      SplitWsContained(line);
      StrippedPartsOf(line, parts);
      StrippedNonBlankFrom(parts);
      var codes := StrippedNonBlank(parts);
      assert forall k | 0 <= k < |codes| :: IsWord(codes[k]) by {
        forall k | 0 <= k < |codes|
          ensures IsWord(codes[k])
        {
          assert codes[k] in StripAll(parts);
          var i :| 0 <= i < |parts| && codes[k] == StripAll(parts)[i];
          assert IsWord(parts[i]);
          StripTrimmed(parts[i]);
        }
      }
      codes
    else
      SliceContained(line, 0, |line|);
      assert line[0..|line|] == line;
      [line]
  }

  /** What one input line adds: nothing when it is blank, else the codes of its stripped text. */
  function LineEntry(line: string): (codes: seq<string>)
    ensures forall k | 0 <= k < |codes| :: Clean(codes[k]) && Contains(line, codes[k])
  {
    var t := Strip(line);
    StripIdempotent(line);
    StripContained(line);
    if t == "" then []
    else
      var codes := LineCodes(t);
      forall k | 0 <= k < |codes|
        ensures Contains(line, codes[k])
      {
        ContainsTrans(line, t, codes[k]);
      }
      codes
  }

  /** The `raw` list: the codes of the lines, in order. */
  function RawCodes(lines: seq<string>): (raw: seq<string>)
  {
    if |lines| == 0 then [] else RawCodes(lines[..|lines| - 1]) + LineEntry(lines[|lines| - 1])
  }

  /** Every raw code is clean and occurs in one of the lines. */
  lemma {:induction false} RawCodesFrom(lines: seq<string>)
    ensures forall k | 0 <= k < |RawCodes(lines)| ::
      Clean(RawCodes(lines)[k]) && exists i | 0 <= i < |lines| :: Contains(lines[i], RawCodes(lines)[k])
  {
    if |lines| > 0 {
      var init := lines[..|lines| - 1];
      var last := LineEntry(lines[|lines| - 1]);
      RawCodesFrom(init);
      var raw := RawCodes(lines);
      assert raw == RawCodes(init) + last;
      forall k | 0 <= k < |raw|
        ensures Clean(raw[k]) && exists i | 0 <= i < |lines| :: Contains(lines[i], raw[k])
      {
        if k < |RawCodes(init)| {
          var i :| 0 <= i < |init| && Contains(init[i], RawCodes(init)[k]);
          assert lines[i] == init[i];
        } else {
          assert raw[k] == last[k - |RawCodes(init)|];
          assert Contains(lines[|lines| - 1], raw[k]);
        }
      }
    } else {
      assert |RawCodes(lines)| == 0;
    }
  }

  /** No code is listed twice. */
  predicate Distinct(xs: seq<string>)
  {
    forall i, j | 0 <= i < j < |xs| :: xs[i] != xs[j]
  }

  /**
   * The `seen`/`unique` pass: each code the first time it occurs. Appending
   * a code appends it to the result exactly when it is new.
   */
  function Dedup(xs: seq<string>): (r: seq<string>)
    ensures forall x :: x in r <==> x in xs
    ensures Distinct(r)
    ensures |r| <= |xs|
  {
    if |xs| == 0 then []
    else
      var init := xs[..|xs| - 1];
      var last := xs[|xs| - 1];
      assert xs == init + [last];
      var d := Dedup(init);
      if last in init then d else d + [last]
  }

  /** A list with no repeats is its own `Dedup`. */
  lemma {:induction false} DedupDistinct(xs: seq<string>)
    requires Distinct(xs)
    ensures Dedup(xs) == xs
  {
    if |xs| > 0 {
      var init := xs[..|xs| - 1];
      DedupDistinct(init);
      assert xs[|xs| - 1] !in init;
      assert init + [xs[|xs| - 1]] == xs;
    }
  }

  /** `Dedup` is idempotent. */
  lemma DedupIdempotent(xs: seq<string>)
    ensures Dedup(Dedup(xs)) == Dedup(xs)
  {
    DedupDistinct(Dedup(xs));
  }

  /** `parse_stock_list`: nothing for blank input, else the first occurrences of the codes of the stripped input's lines. */
  function ParseSpec(input: string): (codes: seq<string>)
  {
    if IsBlank(input) then [] else Dedup(RawCodes(Split(Strip(input), '\n')))
  }

  /**
   * The parser's promises: blank input gives nothing; otherwise every code
   * is non-empty, stripped, free of line breaks, occurs in the input, and
   * appears once; and every raw code of the lines is among the results.
   */
  lemma ParseSpecProps(input: string)
    ensures IsBlank(input) ==> ParseSpec(input) == []
    ensures Distinct(ParseSpec(input))
    ensures forall k | 0 <= k < |ParseSpec(input)| ::
      var code := ParseSpec(input)[k];
      Clean(code) && Contains(input, code) && '\n' !in code
    ensures !IsBlank(input) ==> forall c :: c in ParseSpec(input) <==> c in RawCodes(Split(Strip(input), '\n'))
  {
    if !IsBlank(input) {
      var text := Strip(input);
      var lines := Split(text, '\n');
      var raw := RawCodes(lines);
      var codes := ParseSpec(input);
      RawCodesFrom(lines);
      SplitContained(text, '\n');
      StripContained(input);
      forall k | 0 <= k < |codes|
        ensures Clean(codes[k]) && Contains(input, codes[k]) && '\n' !in codes[k]
      {
        var code := codes[k];
        assert code in raw;
        var j :| 0 <= j < |raw| && raw[j] == code;
        var i :| 0 <= i < |lines| && Contains(lines[i], code);
        ContainsTrans(text, lines[i], code);
        ContainsTrans(input, text, code);
        if '\n' in code {
          ContainedChars(lines[i], code, '\n');
        }
      }
    }
  }

  /** The first loop of `parse_stock_list`: `raw` extended line by line. */
  method CollectRaw(lines: seq<string>) returns (raw: seq<string>)
    ensures raw == RawCodes(lines)
  {
    raw := [];
    var i := 0;
    while i < |lines|
      invariant 0 <= i <= |lines|
      invariant raw == RawCodes(lines[..i])
    {
      assert lines[..i + 1][..i] == lines[..i];
      var line := Strip(lines[i]);
      StripIdempotent(lines[i]);
      if line != "" {
        raw := raw + LineCodes(line);
      }
      i := i + 1;
    }
    assert lines[..|lines|] == lines;
  }

  /** The second loop: a code is appended the first time it is seen. */
  method KeepFirst(raw: seq<string>) returns (codes: seq<string>)
    ensures codes == Dedup(raw)
  {
    var seen: set<string> := {};
    codes := [];
    var i := 0;
    while i < |raw|
      invariant 0 <= i <= |raw|
      invariant codes == Dedup(raw[..i])
      invariant forall x :: x in seen <==> x in raw[..i]
    {
      assert raw[..i + 1] == raw[..i] + [raw[i]];
      assert raw[..i + 1][..i] == raw[..i];
      if raw[i] !in seen {
        seen := seen + {raw[i]};
        codes := codes + [raw[i]];
      }
      i := i + 1;
    }
    assert raw[..|raw|] == raw;
  }

  /** `parse_stock_list`: the blank-input guard, then the two loops. */
  method ParseStockList(input: string) returns (codes: seq<string>)
    ensures codes == ParseSpec(input)
  {
    var text := Strip(input);
    StripSpec(input);
    if text == "" {
      return [];
    }
    var raw := CollectRaw(Split(text, '\n'));
    codes := KeepFirst(raw);
  }
}
