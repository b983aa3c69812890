/**
 * The REWE receipt parser of paperless-grocy-magic/app/receipt_parser.py.
 * Store detection, the date and the total are searches over the whole OCR
 * text; products are found by a line scanner that looks one line ahead for
 * a weight line. The four regular expressions of the parser are written out
 * by hand as matchers; each is deterministic once its start is fixed, so a
 * matcher is a function of the text and a start position.
 */
module ReceiptParser {
  import opened Wrappers
  import opened Text
  import opened Decimal

  // ---------------------------------------------------------------------
  // Scanning helpers
  // ---------------------------------------------------------------------

  /** The end of the run of whitespace (`\s*`) that starts at `i`. */
  function SkipSpace(t: string, i: nat): (j: nat)
    requires i <= |t|
    ensures i <= j <= |t|
    decreases |t| - i
  {
    if i < |t| && IsSpace(t[i]) then SkipSpace(t, i + 1) else i
  }

  lemma {:induction false} SkipSpaceFacts(t: string, i: nat)
    requires i <= |t|
    ensures var j := SkipSpace(t, i);
      (forall m :: i <= m < j ==> IsSpace(t[m])) && (j == |t| || !IsSpace(t[j]))
    decreases |t| - i
  {
    if i < |t| && IsSpace(t[i]) { SkipSpaceFacts(t, i + 1); }
  }

  /** The end of the run of digits (`\d*`) that starts at `i`. */
  function SkipDigits(t: string, i: nat): (j: nat)
    requires i <= |t|
    ensures i <= j <= |t|
    decreases |t| - i
  {
    if i < |t| && IsDigit(t[i]) then SkipDigits(t, i + 1) else i
  }

  lemma {:induction false} SkipDigitsFacts(t: string, i: nat)
    requires i <= |t|
    ensures var j := SkipDigits(t, i);
      AllDigits(t[i..j]) && (j == |t| || !IsDigit(t[j]))
    decreases |t| - i
  {
    if i < |t| && IsDigit(t[i]) {
      SkipDigitsFacts(t, i + 1);
      var j := SkipDigits(t, i);
      assert t[i..j] == [t[i]] + t[i + 1..j];
    }
  }

  /**
   * The leftmost position in `p..n` at which `at` matches: the way
   * `re.search` and a lazy `.+?` pick their match.
   */
  function FirstMatch<T>(n: nat, p: nat, at: nat -> Option<T>): Option<nat>
    decreases n + 1 - p
  {
    if p > n then None
    else if at(p).Some? then Some(p)
    else FirstMatch(n, p + 1, at)
  }

  /** `FirstMatch` finds the least matching position, and finds none only when nothing in range matches. */
  lemma {:induction false} FirstMatchLeast<T>(n: nat, p: nat, at: nat -> Option<T>)
    ensures var r := FirstMatch(n, p, at);
      && (r.Some? ==> p <= r.value <= n && at(r.value).Some? && forall q :: p <= q < r.value ==> at(q).None?)
      && (r.None? ==> forall q :: p <= q <= n ==> at(q).None?)
    decreases n + 1 - p
  {
    if p <= n && at(p).None? {
      FirstMatchLeast(n, p + 1, at);
    }
  }

  /** A position that matches, with none before it in range, is what `FirstMatch` finds. */
  lemma FirstMatchIs<T>(n: nat, p: nat, at: nat -> Option<T>, q: nat)
    requires p <= q <= n && at(q).Some? && forall r :: p <= r < q ==> at(r).None?
    ensures FirstMatch(n, p, at) == Some(q)
  {
    FirstMatchLeast(n, p, at);
  }

  // ---------------------------------------------------------------------
  // Prices: `\d+[,\.]\d{2}` and `\d+[,\.]\d+`, and `_parse_price`
  // ---------------------------------------------------------------------

  /** A decimal amount as the receipt writes it: digits, a comma or point, digits. */
  datatype Amount = Amount(whole: string, sep: char, frac: string) {
    predicate WellFormed() {
      whole != [] && AllDigits(whole) && (sep == ',' || sep == '.') && frac != [] && AllDigits(frac)
    }

    function AsText(): string {
      whole + [sep] + frac
    }
  }

  /** An amount starting at `i`, with exactly two decimals or with one or more; the position after it. */
  function AmountAt(t: string, i: nat, twoDecimals: bool): (r: Option<(Amount, nat)>)
    requires i <= |t|
    ensures r.Some? ==> var (a, j) := r.value;
      a.WellFormed() && i < j <= |t| && (twoDecimals ==> |a.frac| == 2)
  {
    var j := SkipDigits(t, i);
    SkipDigitsFacts(t, i);
    if j == i || j == |t| || !(t[j] == ',' || t[j] == '.') then None
    else
      var k := if twoDecimals then (if j + 3 <= |t| && IsDigit(t[j + 1]) && IsDigit(t[j + 2]) then j + 3 else j + 1)
               else SkipDigits(t, j + 1);
      if k == j + 1 then None
      else
        SkipDigitsFacts(t, j + 1);
        var a := Amount(t[i..j], t[j], t[j + 1..k]);
        assert twoDecimals ==> AllDigits(t[j + 1..k]) by {
          if twoDecimals { assert t[j + 1..k] == [t[j + 1], t[j + 2]]; }
        }
        Some((a, k))
  }

  /** The amount found is exactly the text the pattern consumed. */
  lemma AmountAtText(t: string, i: nat, twoDecimals: bool)
    requires i <= |t| && AmountAt(t, i, twoDecimals).Some?
    ensures var (a, j) := AmountAt(t, i, twoDecimals).value;
      t[i..j] == a.AsText()
  {
    var j := SkipDigits(t, i);
    var (a, k) := AmountAt(t, i, twoDecimals).value;
    assert t[i..k] == t[i..j] + [t[j]] + t[j + 1..k];
  }

  /** `s.replace(from, to)` for single characters. */
  function Replace(s: string, from: char, to: char): (r: string)
    ensures |r| == |s|
    ensures forall i :: 0 <= i < |s| ==> r[i] == (if s[i] == from then to else s[i])
  {
    seq(|s|, i requires 0 <= i < |s| => if s[i] == from then to else s[i])
  }

  /** `_parse_price` (lines 109-111): `float` of the text with commas read as points; `None` where `float` raises. */
  function ParsePrice(s: string): Option<real> {
    ParseFloat(Replace(s, ',', '.'))
  }

  /** A comma and a point are the same decimal separator to `_parse_price`. */
  lemma CommaIsPoint(a: string, b: string)
    ensures ParsePrice(a + [','] + b) == ParsePrice(a + ['.'] + b)
  {
    var x, y := a + [','] + b, a + ['.'] + b;
    assert Replace(x, ',', '.') == Replace(y, ',', '.') by {
      forall i | 0 <= i < |x| ensures Replace(x, ',', '.')[i] == Replace(y, ',', '.')[i] {
        if i != |a| { assert x[i] == y[i]; }
      }
    }
  }

  /** Every amount the matchers capture parses, to its decimal value. */
  lemma ParsePriceOfAmount(a: Amount)
    requires a.WellFormed()
    ensures ParsePrice(a.AsText()) == Some(Price(a))
  {
    var s := a.AsText();
    assert Replace(s, ',', '.') == a.whole + "." + a.frac by {
      forall i | 0 <= i < |s| ensures Replace(s, ',', '.')[i] == (a.whole + "." + a.frac)[i] {
        if i < |a.whole| { assert s[i] == a.whole[i]; }
        else if i > |a.whole| { assert s[i] == a.frac[i - |a.whole| - 1]; }
      }
    }
    ParseFloatFixed(a.whole, a.frac);
  }

  /** The decimal value of a captured amount, which is what `_parse_price` gives for it (`ParsePriceOfAmount`). */
  function Price(a: Amount): (v: real)
    requires a.WellFormed()
    ensures v >= 0.0
  {
    FixedValue(a.whole, a.frac)
  }

  // ---------------------------------------------------------------------
  // Line patterns (lines 44-45)
  // ---------------------------------------------------------------------

  /** `\s*\*?\s*$` from `i`: nothing but whitespace and at most one star. */
  predicate StarEnd(t: string, i: nat)
    requires i <= |t|
  {
    var a := SkipSpace(t, i);
    a == |t| || (t[a] == '*' && SkipSpace(t, a + 1) == |t|)
  }

  /** `\s+(\d+[,\.]\d{2})\s+[AB]\s*\*?\s*$` at `k`: the price and tax class that close a product line. */
  function PriceTail(line: string, k: nat): (r: Option<Amount>)
    ensures r.Some? ==> r.value.WellFormed() && |r.value.frac| == 2
  {
    if k > |line| then None
    else
      var i := SkipSpace(line, k);
      if i == k then None
      else match AmountAt(line, i, true)
        case None => None
        case Some((a, j)) =>
          var m := SkipSpace(line, j);
          if m == j || m == |line| || !(line[m] == 'A' || line[m] == 'B') then None
          else if StarEnd(line, m + 1) then Some(a)
          else None
  }

  /** What a product line yields: the text before the price, and the price. */
  datatype ProductCapture = ProductCapture(name: string, price: Amount)

  /**
   * `PRODUCT_PATTERN.match(line)`: the lazy `(.+?)` takes the shortest
   * non-empty name after which the rest of the line is a price tail. A line
   * never holds a line break here, so `.` matches every character of it.
   */
  function ProductLine(line: string): (r: Option<ProductCapture>)
    ensures r.Some? ==> r.value.price.WellFormed() && r.value.name != []
  {
    match FirstMatch(|line|, 1, k => PriceTail(line, k))
    case None => None
    case Some(k) =>
      FirstMatchLeast(|line|, 1, k => PriceTail(line, k));
      Some(ProductCapture(line[..k], PriceTail(line, k).value))
  }

  /**
   * `WEIGHT_PATTERN.match(line)`, giving the kilogram figure:
   * `\s*(\d+[,\.]\d+)\s*kg\s*x\s*(\d+[,\.]\d{2})\s*EUR/kg\s*$`.
   */
  function WeightLine(line: string): (r: Option<Amount>)
    ensures r.Some? ==> r.value.WellFormed()
  {
    var a := SkipSpace(line, 0);
    match AmountAt(line, a, false)
    case None => None
    case Some((q, j)) => if PerKgTail(line, j) then Some(q) else None
  }

  /** `\s*kg\s*x\s*(\d+[,\.]\d{2})\s*EUR/kg\s*$` from `j`. */
  predicate PerKgTail(line: string, j: nat)
    requires j <= |line|
  {
    var b := SkipSpace(line, j);
    OccursAt(line, "kg", b) && TimesTail(line, SkipSpace(line, b + 2))
  }

  /** `x\s*(\d+[,\.]\d{2})\s*EUR/kg\s*$` at `c`. */
  predicate TimesTail(line: string, c: nat)
    requires c <= |line|
  {
    OccursAt(line, "x", c) && UnitPriceTail(line, SkipSpace(line, c + 1))
  }

  /** `(\d+[,\.]\d{2})\s*EUR/kg\s*$` at `d`. */
  predicate UnitPriceTail(line: string, d: nat)
    requires d <= |line|
  {
    match AmountAt(line, d, true)
    case None => false
    case Some((_, e)) => EurPerKgEnd(line, SkipSpace(line, e))
  }

  lemma PerKgTailLastVisible(line: string, j: nat)
    requires j <= |line| && PerKgTail(line, j)
    ensures LastVisible(line) == Some('g')
  {
    var b := SkipSpace(line, j);
    TimesTailLastVisible(line, SkipSpace(line, b + 2));
  }

  lemma TimesTailLastVisible(line: string, c: nat)
    requires c <= |line| && TimesTail(line, c)
    ensures LastVisible(line) == Some('g')
  {
    UnitPriceTailLastVisible(line, SkipSpace(line, c + 1));
  }

  lemma UnitPriceTailLastVisible(line: string, d: nat)
    requires d <= |line| && UnitPriceTail(line, d)
    ensures LastVisible(line) == Some('g')
  {
    var (_, e) := AmountAt(line, d, true).value;
    EurPerKgLastVisible(line, SkipSpace(line, e));
  }

  /** `EUR/kg\s*$` at `f`. */
  predicate EurPerKgEnd(line: string, f: nat)
    requires f <= |line|
  {
    OccursAt(line, "EUR/kg", f) && SkipSpace(line, f + 6) == |line|
  }

  lemma EurPerKgLastVisible(line: string, f: nat)
    requires f <= |line| && EurPerKgEnd(line, f)
    ensures LastVisible(line) == Some('g')
  {
    assert line[f..f + 6] == "EUR/kg";
    assert line[f + 5] == 'g';
    SkipSpaceFacts(line, f + 6);
    LastVisibleAfter(line, f + 5);
  }

  /** The last character of a line that is not whitespace, if there is one. */
  function LastVisible(line: string): Option<char> {
    if line == [] then None
    else if IsSpace(line[|line| - 1]) then LastVisible(line[..|line| - 1])
    else Some(line[|line| - 1])
  }

  lemma {:induction false} LastVisibleAfter(line: string, m: nat)
    requires m < |line| && !IsSpace(line[m])
    requires forall q :: m < q < |line| ==> IsSpace(line[q])
    ensures LastVisible(line) == Some(line[m])
  {
    if m < |line| - 1 {
      var init := line[..|line| - 1];
      assert forall q :: m < q < |init| ==> init[q] == line[q];
      LastVisibleAfter(init, m);
    }
  }

  /** A price tail ends in its tax class, or in a star after it. */
  lemma PriceTailLastVisible(line: string, k: nat)
    requires PriceTail(line, k).Some?
    ensures LastVisible(line) == Some('A') || LastVisible(line) == Some('B') || LastVisible(line) == Some('*')
  {
    var i := SkipSpace(line, k);
    var (a, j) := AmountAt(line, i, true).value;
    var m := SkipSpace(line, j);
    var s := SkipSpace(line, m + 1);
    SkipSpaceFacts(line, m + 1);
    SkipSpaceFacts(line, j);
    if s == |line| {
      LastVisibleAfter(line, m);
    } else {
      SkipSpaceFacts(line, s + 1);
      LastVisibleAfter(line, s);
    }
  }

  lemma ProductLineLastVisible(line: string)
    requires ProductLine(line).Some?
    ensures LastVisible(line) == Some('A') || LastVisible(line) == Some('B') || LastVisible(line) == Some('*')
  {
    FirstMatchLeast(|line|, 1, k => PriceTail(line, k));
    PriceTailLastVisible(line, FirstMatch(|line|, 1, k => PriceTail(line, k)).value);
  }

  /** A weight line ends in the `g` of `EUR/kg`. */
  lemma WeightLineLastVisible(line: string)
    requires WeightLine(line).Some?
    ensures LastVisible(line) == Some('g')
  {
    var (q, j) := AmountAt(line, SkipSpace(line, 0), false).value;
    PerKgTailLastVisible(line, j);
  }

  /** A weight line is never also a product line, so skipping it after a product loses no item. */
  lemma WeightLineIsNoProduct(line: string)
    requires WeightLine(line).Some?
    ensures ProductLine(line).None?
  {
    WeightLineLastVisible(line);
    if ProductLine(line).Some? {
      ProductLineLastVisible(line);
    }
  }

  // ---------------------------------------------------------------------
  // Whole-text searches (lines 46-47, 55-73)
  // ---------------------------------------------------------------------

  /** The store test of lines 55-59. */
  predicate IsRewe(text: string) {
    Contains(text, "REWE MARKT") || Contains(text, "REWE")
  }

  /** The first disjunct adds nothing: a receipt is a REWE receipt exactly when it contains `REWE`. */
  lemma IsReweIff(text: string)
    ensures IsRewe(text) <==> Contains(text, "REWE")
  {
    if Contains(text, "REWE MARKT") {
      var i :| 0 <= i <= |text| - 10 && OccursAt(text, "REWE MARKT", i);
      assert text[i..i + 4] == text[i..i + 10][..4];
      assert OccursAt(text, "REWE", i);
    }
  }

  /** The digits `DATE_PATTERN` captures: day, month and year. */
  datatype DateCapture = DateCapture(day: string, month: string, year: string)

  /** A calendar date as `datetime` holds it. */
  datatype Date = Date(year: int, month: int, day: int)

  /** `Datum:\s*(\d{2})\.(\d{2})\.(\d{4})` at `p`. */
  function DateAt(t: string, p: nat): (r: Option<DateCapture>)
    ensures r.Some? ==> |r.value.day| == 2 && |r.value.month| == 2 && |r.value.year| == 4
    ensures r.Some? ==> AllDigits(r.value.day) && AllDigits(r.value.month) && AllDigits(r.value.year)
  {
    if !OccursAt(t, "Datum:", p) then None
    else
      var i := SkipSpace(t, p + 6);
      if i + 10 <= |t| && AllDigits(t[i..i + 2]) && t[i + 2] == '.' && AllDigits(t[i + 3..i + 5])
         && t[i + 5] == '.' && AllDigits(t[i + 6..i + 10])
      then Some(DateCapture(t[i..i + 2], t[i + 3..i + 5], t[i + 6..i + 10]))
      else None
  }

  predicate IsLeapYear(y: int) {
    y % 4 == 0 && (y % 100 != 0 || y % 400 == 0)
  }

  function DaysInMonth(y: int, m: int): int
    requires 1 <= m <= 12
  {
    if m == 2 then (if IsLeapYear(y) then 29 else 28)
    else if m == 4 || m == 6 || m == 9 || m == 11 then 30
    else 31
  }

  /** The dates `datetime(year, month, day)` accepts without raising `ValueError`. */
  predicate ValidDate(y: int, m: int, d: int) {
    1 <= y <= 9999 && 1 <= m <= 12 && 1 <= d <= DaysInMonth(y, m)
  }

  /** The first `Datum:` match, as a date when its digits form one (lines 62-68). */
  function DateOf(text: string): (r: Option<Date>)
    ensures r.Some? ==> ValidDate(r.value.year, r.value.month, r.value.day)
  {
    match FirstMatch(|text|, 0, p => DateAt(text, p))
    case None => None
    case Some(p) =>
      FirstMatchLeast(|text|, 0, p => DateAt(text, p));
      var c := DateAt(text, p).value;
      var y, m, d := DigitsValue(c.year), DigitsValue(c.month), DigitsValue(c.day);
      if ValidDate(y, m, d) then Some(Date(y, m, d)) else None
  }

  /**
   * `\d{4}` captures at most 9999, so `datetime`'s upper bound on the
   * year never rejects a `Datum:` match; only year 0 does.
   */
  lemma DateAtYearBelowLimit(t: string, p: nat)
    requires DateAt(t, p).Some?
    ensures DigitsValue(DateAt(t, p).value.year) <= 9999
  {
  }

  /** `SUMME\s+EUR\s+(\d+[,\.]\d{2})` at `p`. */
  function TotalAt(t: string, p: nat): (r: Option<Amount>)
    ensures r.Some? ==> r.value.WellFormed()
  {
    if !OccursAt(t, "SUMME", p) then None
    else
      var i := SkipSpace(t, p + 5);
      if i == p + 5 || !OccursAt(t, "EUR", i) then None
      else
        var j := SkipSpace(t, i + 3);
        if j == i + 3 then None
        else match AmountAt(t, j, true)
          case None => None
          case Some((a, _)) => Some(a)
  }

  /** The amount of the first `SUMME EUR` match (lines 71-73). */
  function TotalOf(text: string): (r: Option<real>)
    ensures r.Some? ==> r.value >= 0.0
  {
    match FirstMatch(|text|, 0, p => TotalAt(text, p))
    case None => None
    case Some(p) =>
      FirstMatchLeast(|text|, 0, p => TotalAt(text, p));
      Some(Price(TotalAt(text, p).value))
  }

  // ---------------------------------------------------------------------
  // `_clean_product_name` (lines 113-124)
  // ---------------------------------------------------------------------

  /** The number of leading ASCII capitals. */
  function UpperRun(s: string): (n: nat)
    ensures n <= |s|
    ensures forall i :: 0 <= i < n ==> IsAsciiUpper(s[i])
    ensures n == |s| || !IsAsciiUpper(s[n])
  {
    if |s| > 0 && IsAsciiUpper(s[0]) then 1 + UpperRun(s[1..]) else 0
  }

  /** `^[A-Z]{1,3}[-\s]` matches the first `n + 1` characters of `s`. */
  predicate CodePrefix(s: string, n: nat) {
    1 <= n <= 3 && n < |s| && (forall i :: 0 <= i < n ==> IsAsciiUpper(s[i])) && (s[n] == '-' || IsSpace(s[n]))
  }

  /** `re.sub(r'^[A-Z]{1,3}[-\s]', '', s)` */
  function StripCode(s: string): string {
    var n := UpperRun(s);
    if 1 <= n <= 3 && n < |s| && (s[n] == '-' || IsSpace(s[n])) then s[n + 1..] else s
  }

  /** At most one code is removed: exactly the one the pattern matches, or nothing when it matches nowhere. */
  lemma StripCodeSpec(s: string)
    ensures forall n: nat :: CodePrefix(s, n) ==> StripCode(s) == s[n + 1..]
    ensures (forall n: nat :: !CodePrefix(s, n)) ==> StripCode(s) == s
  {
    var u := UpperRun(s);
    forall n: nat | CodePrefix(s, n) ensures StripCode(s) == s[n + 1..] {
      assert !IsAsciiUpper(s[n]) by { assert s[n] == '-' || IsSpace(s[n]); }
      assert u == n;
    }
    if StripCode(s) != s {
      assert CodePrefix(s, u);
    }
  }

  function CapitalizeAll(ws: seq<string>): (r: seq<string>)
    ensures |r| == |ws|
    ensures forall k :: 0 <= k < |ws| ==> r[k] == Capitalize(ws[k])
  {
    seq(|ws|, k requires 0 <= k < |ws| => Capitalize(ws[k]))
  }

  /** `_clean_product_name`: strip, drop one leading code, capitalise each word and join with single spaces. */
  function CleanProductName(name: string): string {
    JoinSpace(CapitalizeAll(Words(StripCode(Strip(name)))))
  }

  lemma CapitalizedWord(w: string)
    requires IsWord(w)
    ensures IsWord(Capitalize(w)) && IsCapitalized(Capitalize(w))
  {
    var c := Capitalize(w);
    forall i | 0 <= i < |c| ensures !IsSpace(c[i]) {
      if i > 0 { assert c[i] == LowerChar(w[i]); }
    }
  }

  /**
   * The cleaned name is the words of the code-stripped name, each
   * capitalised, separated by single spaces, with no whitespace at either
   * end; stripping it again changes nothing.
   */
  lemma CleanProductNameShape(name: string)
    ensures var r := CleanProductName(name);
      && Words(r) == CapitalizeAll(Words(StripCode(Strip(name))))
      && (forall k :: 0 <= k < |Words(r)| ==> IsCapitalized(Words(r)[k]))
      && (forall i :: 0 <= i < |r| && IsSpace(r[i]) ==> r[i] == ' ')
      && (forall i :: 0 <= i < |r| - 1 ==> !(IsSpace(r[i]) && IsSpace(r[i + 1])))
      && Strip(r) == r
  {
    var ws := CapitalizeAll(Words(StripCode(Strip(name))));
    forall k | 0 <= k < |ws| ensures IsWord(ws[k]) && IsCapitalized(ws[k]) {
      CapitalizedWord(Words(StripCode(Strip(name)))[k]);
    }
    WordsJoinSpace(ws);
    JoinSpaceShape(ws);
    var r := JoinSpace(ws);
    if r != [] { StripPlain(r); }
  }

  /**
   * A leading code such as `SW-` or `BW ` is dropped and the words after
   * it are capitalised: `SW-VORDERHAXE` becomes `Capitalize("VORDERHAXE")`.
   */
  lemma CleanProductNameDropsCode(code: string, sep: char, ws: seq<string>)
    requires 1 <= |code| <= 3 && forall i :: 0 <= i < |code| ==> IsAsciiUpper(code[i])
    requires sep == '-' || IsSpace(sep)
    requires |ws| >= 1 && forall k :: 0 <= k < |ws| ==> IsWord(ws[k])
    ensures CleanProductName(code + [sep] + JoinSpace(ws)) == JoinSpace(CapitalizeAll(ws))
  {
    var rest := JoinSpace(ws);
    var s := code + [sep] + rest;
    JoinSpaceShape(ws);
    JoinLength(ws);
    assert s[0] == code[0] && s[|s| - 1] == rest[|rest| - 1];
    StripPlain(s);
    assert UpperRun(s) == |code| by {
      UpperRunOf(code, [sep] + rest);
      assert s == code + ([sep] + rest);
    }
    assert s[|code| + 1..] == rest;
    assert StripCode(Strip(s)) == rest;
    WordsJoinSpace(ws);
  }

  lemma {:induction false} UpperRunOf(code: string, t: string)
    requires forall i :: 0 <= i < |code| ==> IsAsciiUpper(code[i])
    requires t != [] && !IsAsciiUpper(t[0])
    ensures UpperRun(code + t) == |code|
  {
    if code != [] {
      assert (code + t)[1..] == code[1..] + t;
      UpperRunOf(code[1..], t);
    }
  }

  // ---------------------------------------------------------------------
  // Receipt items and receipts (lines 10-37)
  // ---------------------------------------------------------------------

  /** The values an item holds. */
  datatype ItemData = ItemData(name: string, price: real, quantity: real, unit: string)

  /**
   * `ReceiptItem`. Its fields are never reassigned; it is a class because
   * the price updater tells items apart by identity.
   */
  class ReceiptItem {
    const name: string
    const price: real
    const quantity: real
    const unit: string
    const pricePerUnit: real

    /** Lines 13-18: the name stripped, and the price per unit when the quantity is positive. */
    constructor (name: string, price: real, quantity: real, unit: string)
      ensures this.name == Strip(name) && this.price == price && this.quantity == quantity && this.unit == unit
      ensures quantity > 0.0 ==> this.pricePerUnit * quantity == price
      ensures quantity <= 0.0 ==> this.pricePerUnit == price
    {
      this.name := Strip(name);
      this.price := price;
      this.quantity := quantity;
      this.unit := unit;
      this.pricePerUnit := if quantity > 0.0 then price / quantity else price;
    }

    function Data(): ItemData {
      ItemData(name, price, quantity, unit)
    }
  }

  function ItemsData(items: seq<ReceiptItem>): (r: seq<ItemData>)
    ensures |r| == |items|
    ensures forall k :: 0 <= k < |items| ==> r[k] == items[k].Data()
  {
    seq(|items|, k requires 0 <= k < |items| => items[k].Data())
  }

  /** The values a parsed receipt holds. */
  datatype ReceiptData = ReceiptData(store: Option<string>, date: Option<Date>, items: seq<ItemData>,
                                     total: Option<real>, rawText: string)

  /** `Receipt` (lines 26-34), filled in by the parser. */
  class Receipt {
    var store: Option<string>
    var date: Option<Date>
    var items: seq<ReceiptItem>
    var total: Option<real>
    var rawText: string

    constructor ()
      ensures store == None && date == None && items == [] && total == None && rawText == ""
    {
      store, date, items, total, rawText := None, None, [], None, "";
    }
  }

  function Snapshot(r: Receipt?): Option<ReceiptData>
    reads r
  {
    if r == null then None
    else Some(ReceiptData(r.store, r.date, ItemsData(r.items), r.total, r.rawText))
  }

  // ---------------------------------------------------------------------
  // `ReweParser.parse` (lines 49-107)
  // ---------------------------------------------------------------------

  /** What the product and weight patterns make of one line. */
  datatype LineMatch = LineMatch(product: Option<ProductCapture>, weight: Option<Amount>)

  function MatchLine(line: string): LineMatch {
    LineMatch(ProductLine(line), WeightLine(line))
  }

  /** What the patterns make of each line, line by line. */
  function Classify(lines: seq<string>): (ms: seq<LineMatch>)
    ensures |ms| == |lines|
  {
    seq(|lines|, k requires 0 <= k < |lines| => MatchLine(lines[k]))
  }

  /** Captured amounts are well formed, and no line is both a weight line and a product line. */
  predicate WellMatched(ms: seq<LineMatch>) {
    forall k :: 0 <= k < |ms| ==>
      && (ms[k].product.Some? ==> ms[k].product.value.price.WellFormed())
      && (ms[k].weight.Some? ==> ms[k].weight.value.WellFormed() && ms[k].product.None?)
  }

  /**
   * `ms` holds what the patterns make of each line. The trigger on `lines[k]`
   * lets a proof look at the lines it reads, and at no others.
   */
  predicate Classifies(ms: seq<LineMatch>, lines: seq<string>) {
    |ms| == |lines| && forall k {:trigger lines[k]} :: 0 <= k < |lines| ==> ms[k] == MatchLine(lines[k])
  }

  lemma ClassifyClassifies(lines: seq<string>)
    ensures Classifies(Classify(lines), lines)
  {
  }

  lemma ClassifyWellMatched(lines: seq<string>)
    ensures WellMatched(Classify(lines))
  {
    var ms := Classify(lines);
    forall k | 0 <= k < |ms|
      ensures ms[k].product.Some? ==> ms[k].product.value.price.WellFormed()
      ensures ms[k].weight.Some? ==> ms[k].weight.value.WellFormed() && ms[k].product.None?
    {
      if WeightLine(lines[k]).Some? {
        WeightLineIsNoProduct(lines[k]);
      }
    }
  }

  /** A product line together with the weight line right after it, if there is one. */
  datatype Entry = Entry(product: ProductCapture, weight: Option<Amount>)

  predicate EntryWellFormed(e: Entry) {
    e.product.price.WellFormed() && (e.weight.Some? ==> e.weight.value.WellFormed())
  }

  /** The item of an entry: the quantity and unit come from its weight line when it has one. */
  function ItemOf(e: Entry): ItemData
    requires EntryWellFormed(e)
  {
    var quantity := if e.weight.Some? then Price(e.weight.value) else 1.0;
    var unit := if e.weight.Some? then "kg" else "Stk";
    ItemData(Strip(CleanProductName(Strip(e.product.name))), Price(e.product.price), quantity, unit)
  }

  /**
   * The entries the line scanner forms from line `i` on: each product line,
   * with the line after it when that one is a weight line.
   */
  function ScanEntries(ms: seq<LineMatch>, i: nat): (es: seq<Entry>)
    requires WellMatched(ms)
    ensures AllWellFormed(es)
    decreases |ms| - i
  {
    if i >= |ms| then []
    else match ms[i].product
      case None => ScanEntries(ms, i + 1)
      case Some(p) =>
        if i + 1 < |ms| && ms[i + 1].weight.Some? then [Entry(p, ms[i + 1].weight)] + ScanEntries(ms, i + 2)
        else [Entry(p, None)] + ScanEntries(ms, i + 1)
  }

  predicate AllWellFormed(es: seq<Entry>) {
    forall k :: 0 <= k < |es| ==> EntryWellFormed(es[k])
  }

  /** The items of some entries, one each and in order. */
  function ItemsOf(es: seq<Entry>): (r: seq<ItemData>)
    requires AllWellFormed(es)
    ensures |r| == |es|
  {
    seq(|es|, k requires 0 <= k < |es| => ItemOf(es[k]))
  }

  lemma ItemsOfAt(es: seq<Entry>, k: nat)
    requires AllWellFormed(es) && k < |es|
    ensures ItemsOf(es)[k] == ItemOf(es[k])
  {
  }

  lemma ItemsOfAppend(a: seq<Entry>, b: seq<Entry>)
    requires AllWellFormed(a) && AllWellFormed(b)
    ensures AllWellFormed(a + b) && ItemsOf(a + b) == ItemsOf(a) + ItemsOf(b)
  {
    assert forall k :: 0 <= k < |a + b| ==> (a + b)[k] == if k < |a| then a[k] else b[k - |a|];
    var l, r := ItemsOf(a + b), ItemsOf(a) + ItemsOf(b);
    forall k | 0 <= k < |l|
      ensures l[k] == r[k]
    {
      ItemsOfAt(a + b, k);
      if k < |a| {
        ItemsOfAt(a, k);
      } else {
        ItemsOfAt(b, k - |a|);
      }
    }
    assert l == r;
  }

  /** The items the line scanner collects from line `i` on. */
  function ScanItems(ms: seq<LineMatch>, i: nat): seq<ItemData>
    requires WellMatched(ms)
  {
    ItemsOf(ScanEntries(ms, i))
  }

  /** The items of a receipt text. */
  function ReceiptItems(text: string): seq<ItemData> {
    var ms := Classify(Split(text, '\n'));
    ClassifyWellMatched(Split(text, '\n'));
    ScanItems(ms, 0)
  }

  /** What `parse` gives for `text`: `None` for a text that is not a REWE receipt. */
  function ParseSpec(text: string): Option<ReceiptData> {
    if !IsRewe(text) then None
    else Some(ReceiptData(Some("REWE"), DateOf(text), ReceiptItems(text), TotalOf(text), text))
  }

  /** `ReweParser.parse` */
  method ReweParse(text: string) returns (receipt: Receipt?)
    ensures Snapshot(receipt) == ParseSpec(text)
    ensures receipt != null ==> fresh(receipt) && forall k :: 0 <= k < |receipt.items| ==> fresh(receipt.items[k])
  {
    var r := new Receipt();
    r.rawText := text;
    if IsRewe(text) {
      r.store := Some("REWE");
    } else {
      return null;
    }
    match FirstMatch(|text|, 0, p => DateAt(text, p)) {
      case Some(p) =>
        FirstMatchLeast(|text|, 0, p => DateAt(text, p));
        var c := DateAt(text, p).value;
        var y, m, d := DigitsValue(c.year), DigitsValue(c.month), DigitsValue(c.day);
        if ValidDate(y, m, d) {
          r.date := Some(Date(y, m, d));
        }
      case None =>
    }
    assert r.date == DateOf(text);
    match FirstMatch(|text|, 0, p => TotalAt(text, p)) {
      case Some(p) =>
        FirstMatchLeast(|text|, 0, p => TotalAt(text, p));
        var amount := TotalAt(text, p).value;
        ParsePriceOfAmount(amount);
        r.total := ParsePrice(amount.AsText());
      case None =>
    }
    assert r.total == TotalOf(text);
    var lines := Split(text, '\n');
    ClassifyWellMatched(lines);
    ClassifyClassifies(lines);
    CollectItems(r, lines, Classify(lines));
    assert ItemsData(r.items) == ReceiptItems(text);
    receipt := r;
  }

  /** The `while i < len(lines)` loop of `parse` (lines 76-104): appends one item per product line. */
  method CollectItems(r: Receipt, lines: seq<string>, ghost ms: seq<LineMatch>)
    requires Classifies(ms, lines) && WellMatched(ms)
    modifies r`items
    ensures ItemsData(r.items) == ItemsData(old(r.items)) + ScanItems(ms, 0)
    ensures forall k :: 0 <= k < |r.items| ==> r.items[k] in old(r.items) || fresh(r.items[k])
  {
    ghost var before := ItemsData(r.items);
    ghost var done: seq<Entry> := [];
    var i := 0;
    while i < |lines|
      invariant i <= |lines|
      invariant AllWellFormed(done) && done + ScanEntries(ms, i) == ScanEntries(ms, 0)
      invariant ItemsData(r.items) == before + ItemsOf(done)
      invariant forall k :: 0 <= k < |r.items| ==> r.items[k] in old(r.items) || fresh(r.items[k])
      decreases |lines| - i
    {
      ghost var added;
      i, added := CollectLine(r, lines, ms, i);
      ItemsOfAppend(done, added);
      AppendAssoc(before, ItemsOf(done), ItemsOf(added));
      AppendAssoc(done, added, ScanEntries(ms, i));
      done := done + added;
    }
    assert done == ScanEntries(ms, 0);
  }

  /** One pass of that loop: a product line adds its item and consumes a weight line right after it. */
  method CollectLine(r: Receipt, lines: seq<string>, ghost ms: seq<LineMatch>, i: nat) returns (next: nat, ghost added: seq<Entry>)
    requires Classifies(ms, lines) && WellMatched(ms) && i < |lines|
    modifies r`items
    ensures i < next <= |lines|
    ensures AllWellFormed(added) && ScanEntries(ms, i) == added + ScanEntries(ms, next)
    ensures ItemsData(r.items) == ItemsData(old(r.items)) + ItemsOf(added)
    ensures forall k :: 0 <= k < |r.items| ==> r.items[k] in old(r.items) || fresh(r.items[k])
  {
    var product, weight;
    product, weight, next := MatchAt(lines, ms, i);
    if product.Some? {
      added := [Entry(product.value, weight)];
      AppendItem(r, product.value, weight);
    } else {
      added := [];
    }
  }

  /**
   * Lines 79-95: whether line `i` is a product line, and the weight line
   * right after it; `next` is the line the loop goes on with.
   */
  method MatchAt(lines: seq<string>, ghost ms: seq<LineMatch>, i: nat) returns (product: Option<ProductCapture>, weight: Option<Amount>, next: nat)
    requires Classifies(ms, lines) && WellMatched(ms) && i < |lines|
    ensures i < next <= |lines|
    ensures product.Some? ==> EntryWellFormed(Entry(product.value, weight)) && AllWellFormed([Entry(product.value, weight)])
    ensures product.Some? ==> ScanEntries(ms, i) == [Entry(product.value, weight)] + ScanEntries(ms, next)
    ensures product.None? ==> ScanEntries(ms, i) == [] + ScanEntries(ms, next)
  {
    product := ProductLine(lines[i]);
    weight := None;
    next := i + 1;
    if product.Some? {
      if i + 1 < |lines| {
        weight := WeightLine(lines[i + 1]);
        if weight.Some? {
          next := i + 2;
        }
      }
      SingleWellFormed(Entry(product.value, weight));
      LineTaken(lines, ms, i, product.value, weight, next);
    } else {
      LineSkipped(lines, ms, i);
    }
  }

  /** Lines 100-101: the item is appended to the receipt. */
  method AppendItem(r: Receipt, p: ProductCapture, weight: Option<Amount>)
    requires EntryWellFormed(Entry(p, weight))
    modifies r`items
    ensures ItemsData(r.items) == ItemsData(old(r.items)) + ItemsOf([Entry(p, weight)])
    ensures forall k :: 0 <= k < |r.items| ==> r.items[k] in old(r.items) || fresh(r.items[k])
  {
    var item := NewItem(p, weight);
    ItemsOfAt([Entry(p, weight)], 0);
    ItemsDataSnoc(r.items, item);
    r.items := r.items + [item];
  }

  lemma SingleWellFormed(e: Entry)
    requires EntryWellFormed(e)
    ensures AllWellFormed([e])
  {
  }

  lemma LineSkipped(lines: seq<string>, ms: seq<LineMatch>, i: nat)
    requires Classifies(ms, lines) && WellMatched(ms) && i < |lines| && ProductLine(lines[i]).None?
    ensures ScanEntries(ms, i) == [] + ScanEntries(ms, i + 1)
  {
    assert ms[i] == MatchLine(lines[i]);
    ScanEntriesSkip(ms, i);
    assert [] + ScanEntries(ms, i + 1) == ScanEntries(ms, i + 1);
  }

  lemma LineTaken(lines: seq<string>, ms: seq<LineMatch>, i: nat, p: ProductCapture, w: Option<Amount>, next: nat)
    requires Classifies(ms, lines) && WellMatched(ms) && i < |lines| && ProductLine(lines[i]) == Some(p)
    requires w == if i + 1 < |lines| then WeightLine(lines[i + 1]) else None
    requires next == if w.Some? then i + 2 else i + 1
    ensures ScanEntries(ms, i) == [Entry(p, w)] + ScanEntries(ms, next)
  {
    assert ms[i] == MatchLine(lines[i]);
    if i + 1 < |lines| {
      assert ms[i + 1] == MatchLine(lines[i + 1]);
    }
    ScanEntriesTake(ms, i);
  }

  /** Lines 84-100: the item of a product line, with the kilogram figure of a following weight line. */
  method NewItem(p: ProductCapture, weight: Option<Amount>) returns (item: ReceiptItem)
    requires EntryWellFormed(Entry(p, weight))
    ensures fresh(item) && item.Data() == ItemOf(Entry(p, weight))
  {
    var name := Strip(p.name);
    ParsePriceOfAmount(p.price);
    var price := ParsePrice(p.price.AsText()).value;
    var quantity, unit := 1.0, "Stk";
    if weight.Some? {
      ParsePriceOfAmount(weight.value);
      quantity := ParsePrice(weight.value.AsText()).value;
      unit := "kg";
    }
    name := CleanProductName(name);
    item := new ReceiptItem(name, price, quantity, unit);
  }

  lemma AppendAssoc<T>(a: seq<T>, b: seq<T>, c: seq<T>)
    ensures (a + b) + c == a + (b + c)
  {
  }

  /** A line that is no product line adds nothing. */
  lemma ScanEntriesSkip(ms: seq<LineMatch>, i: nat)
    requires WellMatched(ms) && i < |ms| && ms[i].product.None?
    ensures ScanEntries(ms, i) == ScanEntries(ms, i + 1)
  {
  }

  /** A product line adds its entry, and a weight line right after it is consumed with it. */
  lemma ScanEntriesTake(ms: seq<LineMatch>, i: nat)
    requires WellMatched(ms) && i < |ms| && ms[i].product.Some?
    ensures var w := if i + 1 < |ms| then ms[i + 1].weight else None;
      ScanEntries(ms, i) == [Entry(ms[i].product.value, w)] + ScanEntries(ms, if w.Some? then i + 2 else i + 1)
  {
  }

  lemma ItemsDataSnoc(items: seq<ReceiptItem>, item: ReceiptItem)
    ensures ItemsData(items + [item]) == ItemsData(items) + [item.Data()]
  {
  }

  // ---------------------------------------------------------------------
  // Properties of the line scanner
  // ---------------------------------------------------------------------

  /** The product lines from line `i` on, in order. */
  function ProductLines(ms: seq<LineMatch>, i: nat): seq<ProductCapture>
    decreases |ms| - i
  {
    if i >= |ms| then []
    else match ms[i].product
      case None => ProductLines(ms, i + 1)
      case Some(p) => [p] + ProductLines(ms, i + 1)
  }

  /** The entries are the product lines, one each and in order: a weight line is never a product line of its own. */
  lemma {:induction false} ScanEntriesProducts(ms: seq<LineMatch>, i: nat)
    requires WellMatched(ms)
    ensures var es, ps := ScanEntries(ms, i), ProductLines(ms, i);
      |es| == |ps| && forall k :: 0 <= k < |es| ==> es[k].product == ps[k]
    decreases |ms| - i
  {
    if i < |ms| && ms[i].product.Some? {
      var p := ms[i].product.value;
      var next := if i + 1 < |ms| && ms[i + 1].weight.Some? then i + 2 else i + 1;
      ScanEntriesProducts(ms, next);
      ScanEntriesTake(ms, i);
      if next == i + 2 {
        assert ProductLines(ms, i + 1) == ProductLines(ms, i + 2);
      }
      var es, ps := ScanEntries(ms, next), ProductLines(ms, next);
      assert ScanEntries(ms, i)[1..] == es && ProductLines(ms, i)[1..] == ps;
    } else if i < |ms| {
      ScanEntriesProducts(ms, i + 1);
    }
  }

  /**
   * One item per product line, in the order of the lines, with that line's
   * cleaned name and price.
   */
  lemma ScanItemsFollowProducts(ms: seq<LineMatch>, i: nat)
    requires WellMatched(ms)
    ensures var items, ps := ScanItems(ms, i), ProductLines(ms, i);
      && |items| == |ps|
      && forall k :: 0 <= k < |items| ==>
           ps[k].price.WellFormed() && items[k].name == CleanProductName(Strip(ps[k].name)) && items[k].price == Price(ps[k].price)
  {
    ScanEntriesProducts(ms, i);
    var es, items, ps := ScanEntries(ms, i), ScanItems(ms, i), ProductLines(ms, i);
    forall k | 0 <= k < |items|
      ensures ps[k].price.WellFormed() && items[k].name == CleanProductName(Strip(ps[k].name)) && items[k].price == Price(ps[k].price)
    {
      ItemsOfAt(es, k);
      CleanProductNameShape(Strip(ps[k].name));
    }
  }

  /** There are never more entries than lines. */
  lemma {:induction false} ScanEntriesBound(ms: seq<LineMatch>, i: nat)
    requires WellMatched(ms) && i <= |ms|
    ensures |ScanEntries(ms, i)| <= |ms| - i
    decreases |ms| - i
  {
    if i < |ms| {
      ScanEntriesBound(ms, i + 1);
      if i + 1 < |ms| { ScanEntriesBound(ms, i + 2); }
    }
  }

  /** There are never more items than lines. */
  lemma ScanItemsBound(ms: seq<LineMatch>, i: nat)
    requires WellMatched(ms) && i <= |ms|
    ensures |ScanItems(ms, i)| <= |ms| - i
  {
    ScanEntriesBound(ms, i);
  }

  /**
   * Every item is priced at a non-negative amount. Its unit is `kg` when a
   * weight line follows its product line, with the weight line's figure as
   * quantity, and `Stk` with quantity 1 otherwise.
   */
  lemma ScanItemsUnits(ms: seq<LineMatch>, i: nat)
    requires WellMatched(ms)
    ensures var es, items := ScanEntries(ms, i), ScanItems(ms, i);
      forall k :: 0 <= k < |items| ==>
        && items[k].price >= 0.0 && items[k].quantity >= 0.0
        && (es[k].weight.Some? ==> items[k].unit == "kg" && items[k].quantity == Price(es[k].weight.value))
        && (es[k].weight.None? ==> items[k].unit == "Stk" && items[k].quantity == 1.0)
  {
    var es := ScanEntries(ms, i);
    forall k | 0 <= k < |es| {
      ItemsOfAt(es, k);
    }
  }

  /** A product line followed by a weight line gives one `kg` item, and the scan goes on after the weight line. */
  lemma ScanItemsWeighed(ms: seq<LineMatch>, i: nat)
    requires WellMatched(ms) && i + 1 < |ms|
    requires ms[i].product.Some? && ms[i + 1].weight.Some?
    ensures var items := ScanItems(ms, i);
      |items| >= 1 && items[0].unit == "kg" && items[0].quantity == Price(ms[i + 1].weight.value)
      && items[1..] == ScanItems(ms, i + 2)
  {
    ScanEntriesTake(ms, i);
    var e := Entry(ms[i].product.value, ms[i + 1].weight);
    ItemsOfAppend([e], ScanEntries(ms, i + 2));
    ItemsOfAt([e], 0);
  }

  /** The parser gives up exactly on texts without `REWE`; otherwise the store is REWE and the text is kept. */
  lemma ParseSpecStore(text: string)
    ensures ParseSpec(text).None? <==> !Contains(text, "REWE")
    ensures ParseSpec(text).Some? ==> ParseSpec(text).value.store == Some("REWE") && ParseSpec(text).value.rawText == text
  {
    IsReweIff(text);
  }

  /**
   * When `p` is where `Datum:` first matches, the date is the one its
   * digits spell if they form a calendar date, and absent otherwise.
   */
  lemma DateOfFirstMatch(text: string, p: nat)
    requires p <= |text| && DateAt(text, p).Some? && forall q :: 0 <= q < p ==> DateAt(text, q).None?
    ensures var c := DateAt(text, p).value;
      var y, m, d := DigitsValue(c.year), DigitsValue(c.month), DigitsValue(c.day);
      DateOf(text) == if ValidDate(y, m, d) then Some(Date(y, m, d)) else None
  {
    FirstMatchIs(|text|, 0, p => DateAt(text, p), p);
  }

  /** Without a `Datum:` match there is no date. */
  lemma DateOfNoMatch(text: string)
    requires forall q :: 0 <= q <= |text| ==> DateAt(text, q).None?
    ensures DateOf(text) == None
  {
    FirstMatchLeast(|text|, 0, p => DateAt(text, p));
  }

  /** When `p` is where `SUMME EUR` first matches, the total is the amount there. */
  lemma TotalOfFirstMatch(text: string, p: nat)
    requires p <= |text| && TotalAt(text, p).Some? && forall q :: 0 <= q < p ==> TotalAt(text, q).None?
    ensures TotalOf(text) == Some(Price(TotalAt(text, p).value))
  {
    FirstMatchIs(|text|, 0, p => TotalAt(text, p), p);
  }

  // ---------------------------------------------------------------------
  // `ReceiptParserFactory` and `parse_receipt` (lines 127-166)
  // ---------------------------------------------------------------------

  /** The registered store names (`PARSERS`). */
  const Parsers: seq<string> := ["rewe"]

  /** `ReceiptParserFactory.parse`: the hinted parser first, then every parser in turn. */
  method FactoryParse(text: string, storeHint: Option<string>) returns (receipt: Receipt?)
    ensures Snapshot(receipt) == ParseSpec(text)
    ensures receipt != null ==> fresh(receipt)
  {
    if storeHint.Some? && storeHint.value != "" {
      var hint := Lower(storeHint.value);
      if hint in Parsers {
        receipt := ReweParse(text);
        if receipt != null {
          return;
        }
      }
    }
    var k := 0;
    while k < |Parsers|
      invariant 0 <= k <= |Parsers|
      invariant k > 0 ==> ParseSpec(text).None?
    {
      receipt := ReweParse(text);
      if receipt != null {
        return;
      }
      k := k + 1;
    }
    receipt := null;
  }

  /** `parse_receipt`: the factory, whatever the hint. */
  method ParseReceipt(text: string, storeHint: Option<string>) returns (receipt: Receipt?)
    ensures Snapshot(receipt) == ParseSpec(text)
    ensures receipt != null ==> fresh(receipt)
  {
    receipt := FactoryParse(text, storeHint);
  }
}
