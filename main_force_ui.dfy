/** The main-force page's input cleaning: exchange suffixes dropped before codes go to batch analysis. */
module MainForceUi {
  import opened Strings

  /** `_clean_stock_code`: the text before the first '.', or the code itself when it has none. */
  function CleanStockCode(code: string): (r: string)
    ensures '.' !in r
    ensures '.' !in code ==> r == code
    ensures '.' in code ==> r == code[..Find(code, '.')]
  {
    if '.' in code then
      var i := Find(code, '.');
      assert forall k | 0 <= k < i :: code[..i][k] == code[k];
      code[..i]
    else code
  }

  /** Cleaning is idempotent and only ever shortens the code to a prefix. */
  lemma CleanIdempotent(code: string)
    ensures CleanStockCode(CleanStockCode(code)) == CleanStockCode(code)
    ensures |CleanStockCode(code)| <= |code| && code[..|CleanStockCode(code)|] == CleanStockCode(code)
  {
  }

  /** `c.replace(a, b)` applied to every character in the list `from`. */
  function Unify(s: string): (r: string)
    ensures |r| == |s|
    ensures '\n' !in r && '，' !in r
  {
    ReplaceChar(ReplaceChar(s, '\n', ','), '，', ',')
  }

  /** `[_clean_stock_code(c.strip()) for c in pieces if c.strip()]` */
  function CleanAll(pieces: seq<string>): (r: seq<string>)
    ensures |r| <= |pieces|
    ensures forall k | 0 <= k < |r| :: '.' !in r[k]
  {
    if |pieces| == 0 then []
    else
      var p := Strip(pieces[0]);
      (if p != "" then [CleanStockCode(p)] else []) + CleanAll(pieces[1..])
  }

  /** Cleaning a list of pieces is cleaning the non-blank stripped pieces one by one. */
  lemma {:induction false} CleanAllIsMapped(pieces: seq<string>)
    ensures var s := StrippedNonBlank(pieces);
      |CleanAll(pieces)| == |s| && forall k | 0 <= k < |s| :: CleanAll(pieces)[k] == CleanStockCode(s[k])
  {
    if |pieces| > 0 {
      CleanAllIsMapped(pieces[1..]);
    }
  }

  /**
   * The cleaned codes of the text area: newlines and full-width commas act as
   * commas; blank pieces are dropped and the rest are stripped and cleaned.
   */
  function CleanedCodes(input: string): (codes: seq<string>)
    ensures forall k | 0 <= k < |codes| :: '.' !in codes[k] && ',' !in codes[k]
  {
    var pieces := Split(Unify(input), ',');
    CleanedLack(pieces);
    CleanAll(pieces)
  }

  /** The pieces of a split on ',' hold no ',', and neither do their cleaned forms. */
  lemma CleanedLack(pieces: seq<string>)
    requires forall j | 0 <= j < |pieces| :: ',' !in pieces[j]
    ensures forall k | 0 <= k < |CleanAll(pieces)| :: ',' !in CleanAll(pieces)[k]
  {
    CleanAllIsMapped(pieces);
    forall k | 0 <= k < |CleanAll(pieces)| ensures ',' !in CleanAll(pieces)[k] {
      StrippedLacks(pieces, ',', k);
      CleanPrefixLacks(StrippedNonBlank(pieces)[k], ',');
    }
  }

  /** A character no piece holds is in no stripped piece either. */
  lemma {:induction false} StrippedLacks(pieces: seq<string>, c: char, k: nat)
    requires forall j | 0 <= j < |pieces| :: c !in pieces[j]
    requires k < |StrippedNonBlank(pieces)|
    ensures c !in StrippedNonBlank(pieces)[k]
  {
    var p := Strip(pieces[0]);
    StripLacks(pieces[0], c);
    if p == "" || k > 0 {
      StrippedLacks(pieces[1..], c, if p == "" then k else k - 1);
    }
  }

  lemma StripLacks(s: string, c: char)
    requires c !in s
    ensures c !in Strip(s)
  {
    var t := LStrip(s);
    assert forall i | 0 <= i < |t| :: t[i] == s[LeadingSpaces(s) + i];
    assert forall i | 0 <= i < |Strip(s)| :: Strip(s)[i] == t[i];
  }

  lemma CleanPrefixLacks(s: string, c: char)
    requires c !in s
    ensures c !in CleanStockCode(s)
  {
    var r := CleanStockCode(s);
    assert forall i | 0 <= i < |r| :: r[i] == s[i];
  }

  /** The text sent to batch analysis: the cleaned codes joined with ", ". */
  function CleanedInput(input: string): (r: string)
    ensures '.' !in r
  {
    var codes := CleanedCodes(input);
    JoinLacks(codes, ", ", '.');
    Join(codes, ", ")
  }

  lemma {:induction false} JoinLacks(parts: seq<string>, sep: string, c: char)
    requires c !in sep && forall k | 0 <= k < |parts| :: c !in parts[k]
    ensures c !in Join(parts, sep)
  {
    if |parts| > 1 {
      JoinLacks(parts[1..], sep, c);
    }
  }

  /** Blank text, or text of separators and blanks only, sends nothing. */
  lemma BlankSendsNothing()
    ensures CleanedCodes("") == [] && CleanedInput("") == ""
  {
    assert Split(Unify(""), ',') == [""];
    assert Strip("") == "";
  }
}
