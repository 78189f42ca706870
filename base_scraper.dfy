/** The two text parsers every scraper shares: reading a price out of price text, and
    reading a unit and size out of a product's text. Both are pure string-to-value
    functions; the numbers they produce are exact decimals here (`real`), where the
    program produces binary floats. */
module BaseScraper {
  import opened Wrappers
  import opened Text

  // ---------------------------------------------------------------- scanning helpers

  /** The longest prefix of `s` whose characters all satisfy `p`. */
  function Span(s: string, p: char -> bool): (r: string)
    ensures r <= s
    ensures forall i :: 0 <= i < |r| ==> p(r[i])
    ensures |r| < |s| ==> !p(s[|r|])
  {
    if s != [] && p(s[0]) then [s[0]] + Span(s[1..], p) else []
  }

  /** A span ends where `p` first fails. */
  lemma {:induction false} SpanOfPrefix(a: string, b: string, p: char -> bool)
    requires forall i :: 0 <= i < |a| ==> p(a[i])
    requires b == [] || !p(b[0])
    ensures Span(a + b, p) == a
  {
    if a != [] {
      assert (a + b)[1..] == a[1..] + b;
      SpanOfPrefix(a[1..], b, p);
    } else {
      assert a + b == b;
    }
  }

  predicate AllDigits(s: string) {
    forall i :: 0 <= i < |s| ==> IsDigit(s[i])
  }

  predicate HasDigit(s: string) {
    exists i :: 0 <= i < |s| && IsDigit(s[i])
  }

  /** The value of a run of decimal digits. */
  function Digits(ds: string): (r: nat)
    requires AllDigits(ds)
  {
    if ds == [] then 0 else Digits(ds[..|ds| - 1]) * 10 + (ds[|ds| - 1] as int - '0' as int)
  }

  function Pow10(n: nat): (r: nat)
    ensures r >= 1
  {
    if n == 0 then 1 else 10 * Pow10(n - 1)
  }

  /** `n` digits never reach `10^n`. */
  lemma {:induction false} DigitsBelowPow10(ds: string)
    requires AllDigits(ds)
    ensures Digits(ds) < Pow10(|ds|)
  {
    if ds != [] {
      DigitsBelowPow10(ds[..|ds| - 1]);
    }
  }

  /** `float(t)` for the text of a number: leading digits, then optionally '.' and more
      digits (anything after those is ignored). */
  function DecimalValue(t: string): (r: real)
    ensures r >= 0.0
  {
    var ds := Span(t, IsDigit);
    var rest := t[|ds|..];
    var fs := if rest != [] && rest[0] == '.' then Span(rest[1..], IsDigit) else [];
    Digits(ds) as real + Fraction(fs)
  }

  /** A run of digits alone has its integer value. */
  lemma DecimalValueOfInteger(ds: string)
    requires AllDigits(ds)
    ensures DecimalValue(ds) == Digits(ds) as real
  {
    assert ds + [] == ds;
    SpanOfPrefix(ds, [], IsDigit);
  }

  /** The value of `ds.fs` is `ds` plus `fs` read as a fraction. */
  lemma DecimalValueOfParts(ds: string, fs: string)
    requires AllDigits(ds) && AllDigits(fs)
    ensures DecimalValue(ds + ['.'] + fs) == Digits(ds) as real + Fraction(fs)
  {
    var t := ds + ['.'] + fs;
    assert t == ds + (['.'] + fs);
    SpanOfPrefix(ds, ['.'] + fs, IsDigit);
    assert t[|ds|..] == ['.'] + fs;
    assert t[|ds|..][1..] == fs + [];
    SpanOfPrefix(fs, [], IsDigit);
  }

  /** Digits after the point, as a fraction. */
  function Fraction(fs: string): (r: real)
    requires AllDigits(fs)
    ensures r >= 0.0
  {
    Digits(fs) as real / Pow10(|fs|) as real
  }

  /** The digits after the point never add a whole unit. */
  lemma FractionBelowOne(fs: string)
    requires AllDigits(fs)
    ensures 0.0 <= Fraction(fs) < 1.0
  {
    DigitsBelowPow10(fs);
    QuotientBelowOne(Digits(fs) as real, Pow10(|fs|) as real);
  }

  lemma QuotientBelowOne(d: real, p: real)
    requires 0.0 <= d < p
    ensures d / p < 1.0
  {
    assert d / p * p == d;
  }

  // ---------------------------------------------------------------- _parse_price

  /** The characters the class `[€\s]` deletes. */
  predicate Dropped(c: char) {
    c == '€' || IsSpace(c)
  }

  function CleanChar(c: char): string {
    if Dropped(c) then [] else if c == ',' then ['.'] else [c]
  }

  /** '€' and whitespace deleted, then ',' replaced by '.'. */
  function Clean(s: string): (r: string)
    ensures forall i :: 0 <= i < |r| ==> !Dropped(r[i]) && r[i] != ','
  {
    if s == [] then [] else Clean(s[..|s| - 1]) + CleanChar(s[|s| - 1])
  }

  /** Cleaning works character by character: it distributes over concatenation, drops '€'
      and whitespace, turns ',' into '.', and keeps every other character. */
  lemma {:induction false} CleanAppend(a: string, b: string)
    ensures Clean(a + b) == Clean(a) + Clean(b)
    ensures |b| == 1 ==> Clean(b) == CleanChar(b[0])
    decreases |b|
  {
    if b == [] {
      assert a + b == a;
    } else {
      assert (a + b)[..|a + b| - 1] == a + b[..|b| - 1];
      CleanAppend(a, b[..|b| - 1]);
      if |b| == 1 {
        assert b[..0] == [];
      }
    }
  }

  /** Digits pass through cleaning unchanged, and cleaning makes no digit of anything else. */
  lemma CleanCharDigits(c: char)
    ensures IsDigit(c) ==> CleanChar(c) == [c]
    ensures forall i :: 0 <= i < |CleanChar(c)| && IsDigit(CleanChar(c)[i]) ==> CleanChar(c)[i] == c
  {
    if IsDigit(c) {
      assert !IsSpace(c);
    }
  }

  /** Cleaning neither adds nor removes digits. */
  lemma {:induction false} CleanKeepsDigits(s: string)
    ensures HasDigit(Clean(s)) <==> HasDigit(s)
  {
    if s != [] {
      var init := s[..|s| - 1];
      CleanKeepsDigits(init);
      var last := s[|s| - 1];
      CleanCharDigits(last);
      if HasDigit(s) {
        var i :| 0 <= i < |s| && IsDigit(s[i]);
        if i < |s| - 1 {
          assert IsDigit(init[i]);
          var j :| 0 <= j < |Clean(init)| && IsDigit(Clean(init)[j]);
          assert Clean(s)[j] == Clean(init)[j];
        } else {
          assert Clean(s)[|Clean(init)|] == last;
        }
      }
      if HasDigit(Clean(s)) {
        var j :| 0 <= j < |Clean(s)| && IsDigit(Clean(s)[j]);
        if j < |Clean(init)| {
          assert IsDigit(Clean(init)[j]);
          var i :| 0 <= i < |init| && IsDigit(init[i]);
          assert s[i] == init[i];
        } else {
          assert IsDigit(last);
        }
      }
    }
  }

  /** The text `\d+\.?\d*` matches at the start of `s`: the whole digit run, then a '.' and
      the digits after it when there is one. */
  function PriceText(s: string): (r: string)
    requires s != [] && IsDigit(s[0])
    ensures r <= s && r != []
    ensures |r| < |s| ==> !IsDigit(s[|r|]) && ('.' !in r ==> s[|r|] != '.')
    ensures IsDigit(r[0]) && forall i :: 0 < i < |r| ==> IsDigit(r[i]) || (r[i] == '.' && '.' !in r[..i])
  {
    var ds := Span(s, IsDigit);
    var rest := s[|ds|..];
    if rest != [] && rest[0] == '.' then
      assert s == ds + rest;
      var fs := Span(rest[1..], IsDigit);
      assert rest[1..][..|fs|] == fs;
      assert s[..|ds| + 1 + |fs|] == ds + ['.'] + fs;
      ds + ['.'] + fs
    else ds
  }

  /** The position of the first digit. */
  function FirstDigit(s: string): (k: nat)
    requires HasDigit(s)
    ensures k < |s| && IsDigit(s[k])
    ensures forall j :: 0 <= j < k ==> !IsDigit(s[j])
  {
    if IsDigit(s[0]) then 0
    else
      var i :| 0 <= i < |s| && IsDigit(s[i]);
      assert IsDigit(s[1..][i - 1]);
      1 + FirstDigit(s[1..])
  }

  /** `re.search(r"(\d+\.?\d*)", s)`: the leftmost match. */
  function SearchPrice(s: string): (r: Option<string>)
    ensures r.Some? ==> r.value != [] && IsDigit(r.value[0]) && |r.value| <= |s|
  {
    if s == [] then None
    else if IsDigit(s[0]) then Some(PriceText(s))
    else SearchPrice(s[1..])
  }

  /** The search finds a number exactly when there is a digit, and the number it finds
      starts at the first digit. */
  lemma {:induction false} SearchPriceFirstDigit(s: string)
    ensures SearchPrice(s).Some? <==> HasDigit(s)
    ensures HasDigit(s) ==> SearchPrice(s) == Some(PriceText(s[FirstDigit(s)..]))
  {
    if s != [] && !IsDigit(s[0]) {
      SearchPriceFirstDigit(s[1..]);
      if HasDigit(s) {
        var i :| 0 <= i < |s| && IsDigit(s[i]);
        assert IsDigit(s[1..][i - 1]);
        assert s[1..][FirstDigit(s[1..])..] == s[FirstDigit(s)..];
      }
      if HasDigit(s[1..]) {
        var i :| 0 <= i < |s[1..]| && IsDigit(s[1..][i]);
        assert IsDigit(s[i + 1]);
      }
    } else if s != [] {
      assert s[0..] == s;
    }
  }

  /** `_parse_price`: None for missing or empty text, else the leftmost number of the
      cleaned text, or None when it has none. */
  function ParsePrice(priceText: Option<string>): (r: Option<real>)
    ensures r.Some? ==> r.value >= 0.0
  {
    if priceText.None? || priceText.value == [] then None
    else
      match SearchPrice(Clean(priceText.value))
      case None => None
      case Some(t) => Some(DecimalValue(t))
  }

  /** Missing or empty text has no price. */
  lemma ParsePriceOfNothing()
    ensures ParsePrice(None) == None
    ensures ParsePrice(Some("")) == None
  {
  }

  /** Text has a price exactly when it holds a digit; the price is the value of the
      longest `\d+\.?\d*` run starting at the first digit of the cleaned text. */
  lemma ParsePriceFirstNumber(text: string)
    ensures ParsePrice(Some(text)).Some? <==> HasDigit(text)
    ensures HasDigit(text) ==>
      var c := Clean(text);
      HasDigit(c) && ParsePrice(Some(text)) == Some(DecimalValue(PriceText(c[FirstDigit(c)..])))
  {
    CleanKeepsDigits(text);
    SearchPriceFirstDigit(Clean(text));
  }

  // ---------------------------------------------------------------- _extract_unit_info

  /** One pattern `(\d+(?:[.,]\d+)?)\s*(?:word…)` (or `(\d+)\s*…` when `fraction` is
      false) and the unit it stands for. Only the shortest alternative of each group
      matters to where a match starts and what it captures. */
  datatype UnitPattern = UnitPattern(fraction: bool, word: string, unit: string)

  /** The patterns in the order they are tried. */
  const UnitPatterns: seq<UnitPattern> := [
    UnitPattern(true, "l", "liter"),
    UnitPattern(true, "ml", "ml"),
    UnitPattern(true, "kg", "kg"),
    UnitPattern(true, "g", "gram"),
    UnitPattern(false, "st", "stuk")
  ]

  const Units: set<string> := {"liter", "ml", "kg", "gram", "stuk"}

  predicate IsSeparator(c: char) {
    c == '.' || c == ','
  }

  /** `\d+(?:[.,]\d+)?` when `fraction` holds, `\d+` otherwise: all digits, or digits
      around a single separator that has a digit on either side. */
  predicate NumberShape(r: string, fraction: bool) {
    || (r != [] && forall i :: 0 <= i < |r| ==> IsDigit(r[i]))
    || (fraction && exists k :: (0 < k < |r| - 1 && IsSeparator(r[k])
                                 && forall i :: 0 <= i < |r| && i != k ==> IsDigit(r[i])))
  }

  /** The group a pattern captures at the start of `s`: the digit run, then a separator and
      the digits after it when the pattern allows a fraction and a digit follows it. */
  function SizeText(s: string, fraction: bool): (r: string)
    requires s != [] && IsDigit(s[0])
    ensures r <= s && r != []
    ensures |r| == |s| || !IsDigit(s[|r|])
    ensures forall i :: 0 <= i < |r| ==> IsDigit(r[i]) || (fraction && IsSeparator(r[i]))
    ensures NumberShape(r, fraction)
  {
    var ds := Span(s, IsDigit);
    var n := |ds|;
    if fraction && n + 1 < |s| && IsSeparator(s[n]) && IsDigit(s[n + 1]) then
      var fs := Span(s[n + 1..], IsDigit);
      PrefixExtend(s, ds, fs);
      ds + [s[n]] + fs
    else ds
  }

  /** A prefix, the next character and a prefix of what follows make a prefix. */
  lemma PrefixExtend(s: string, ds: string, fs: string)
    requires ds <= s && |ds| < |s| && fs <= s[|ds| + 1..]
    ensures ds + [s[|ds|]] + fs <= s
  {
    var n := |ds|;
    assert s == s[..n] + [s[n]] + s[n + 1..];
    assert s[n + 1..][..|fs|] == fs;
    assert s[..n + 1 + |fs|] == s[..n] + [s[n]] + s[n + 1..][..|fs|];
  }

  /** The pattern matched with its start at the start of `s`, giving the captured size
      text. Backtracking cannot help a failed attempt: the characters a shorter number or
      fewer spaces leave next are digits, separators or spaces, never the unit's letter. */
  function MatchAt(s: string, p: UnitPattern): (r: Option<string>)
    ensures r.Some? ==> r.value <= s && r.value != [] && IsDigit(r.value[0])
  {
    if s == [] || !IsDigit(s[0]) then None
    else
      var num := SizeText(s, p.fraction);
      var after := s[|num|..];
      if p.word <= after[|Span(after, IsSpace)|..] then Some(num) else None
  }

  /** A match at the start of `s` captures a number that cannot be extended by a digit, made
      of digits and, where the pattern allows a fraction, a separator; after it and any
      blanks comes the pattern's unit word. */
  lemma MatchAtShape(s: string, p: UnitPattern)
    ensures var r := MatchAt(s, p);
            r.Some? ==>
              && (|r.value| == |s| || !IsDigit(s[|r.value|]))
              && p.word <= s[|r.value| + |Span(s[|r.value|..], IsSpace)|..]
              && NumberShape(r.value, p.fraction)
  {
  }

  /** Once the number is known, the match succeeds when blanks and the unit word follow. */
  lemma MatchAtAfterNumber(s: string, p: UnitPattern, num: string, ws: string, rest: string)
    requires s != [] && IsDigit(s[0]) && SizeText(s, p.fraction) == num
    requires s[|num|..] == ws + p.word + rest
    requires forall i :: 0 <= i < |ws| ==> IsSpace(ws[i])
    requires p.word != [] && !IsSpace(p.word[0])
    ensures MatchAt(s, p) == Some(num)
  {
    var after := s[|num|..];
    SpanOfPrefix(ws, p.word + rest, IsSpace);
    assert after[|ws|..] == p.word + rest;
  }

  /** A whole number, blanks and a pattern's unit word are matched, the number captured. */
  lemma MatchAtFindsWhole(k: nat, ds: string, ws: string, rest: string)
    requires k < |UnitPatterns|
    requires ds != [] && forall i :: 0 <= i < |ds| ==> IsDigit(ds[i])
    requires forall i :: 0 <= i < |ws| ==> IsSpace(ws[i])
    ensures MatchAt(ds + ws + UnitPatterns[k].word + rest, UnitPatterns[k]) == Some(ds)
  {
    var p := UnitPatterns[k];
    var tail := ws + p.word + rest;
    var s := ds + tail;
    assert ds + ws + p.word + rest == s;
    UnitWordStart(k);
    assert tail == [] || !IsDigit(tail[0]) by {
      if ws != [] { assert tail[0] == ws[0]; } else { assert tail[0] == p.word[0]; }
    }
    assert !IsSeparator(tail[0]) by {
      if ws != [] { assert tail[0] == ws[0]; } else { assert tail[0] == p.word[0]; }
    }
    SpanOfPrefix(ds, tail, IsDigit);
    assert s[|ds|] == tail[0];
    assert SizeText(s, p.fraction) == ds;
    assert s[|ds|..] == tail;
    MatchAtAfterNumber(s, p, ds, ws, rest);
  }

  /** A number with a fraction, blanks and the unit word of a pattern that allows
      fractions are matched, the whole number captured. */
  lemma MatchAtFindsFraction(k: nat, ds: string, sep: char, fs: string, ws: string, rest: string)
    requires k < |UnitPatterns| && UnitPatterns[k].fraction
    requires ds != [] && forall i :: 0 <= i < |ds| ==> IsDigit(ds[i])
    requires IsSeparator(sep)
    requires fs != [] && forall i :: 0 <= i < |fs| ==> IsDigit(fs[i])
    requires forall i :: 0 <= i < |ws| ==> IsSpace(ws[i])
    ensures MatchAt(ds + [sep] + fs + ws + UnitPatterns[k].word + rest, UnitPatterns[k]) == Some(ds + [sep] + fs)
  {
    var p := UnitPatterns[k];
    var tail := ws + p.word + rest;
    var num := ds + [sep] + fs;
    var s := num + tail;
    assert ds + [sep] + fs + ws + p.word + rest == s;
    UnitWordStart(k);
    assert tail == [] || !IsDigit(tail[0]) by {
      if ws != [] { assert tail[0] == ws[0]; } else { assert tail[0] == p.word[0]; }
    }
    SizeTextOfFraction(ds, sep, fs, tail);
    assert s[|num|..] == tail;
    MatchAtAfterNumber(s, p, num, ws, rest);
  }

  /** The capture of `digits separator digits` followed by a non-digit, where a fraction is
      allowed, is that whole number. */
  lemma SizeTextOfFraction(ds: string, sep: char, fs: string, tail: string)
    requires ds != [] && forall i :: 0 <= i < |ds| ==> IsDigit(ds[i])
    requires IsSeparator(sep)
    requires fs != [] && forall i :: 0 <= i < |fs| ==> IsDigit(fs[i])
    requires tail == [] || !IsDigit(tail[0])
    ensures var s := ds + [sep] + fs + tail; s != [] && IsDigit(s[0]) && SizeText(s, true) == ds + [sep] + fs
  {
    var s := ds + [sep] + fs + tail;
    assert s == ds + ([sep] + fs + tail);
    SpanOfPrefix(ds, [sep] + fs + tail, IsDigit);
    var n := |ds|;
    assert s[n..] == [sep] + fs + tail;
    assert s[n + 1..] == fs + tail;
    SpanOfPrefix(fs, tail, IsDigit);
  }

  /** Every unit word starts with a letter: not a digit, a separator or whitespace. */
  lemma UnitWordStart(k: nat)
    requires k < |UnitPatterns|
    ensures UnitPatterns[k].word != []
    ensures var c := UnitPatterns[k].word[0]; !IsDigit(c) && !IsSeparator(c) && !IsSpace(c)
  {
  }

  /** The first of `xs` on which `m` gives a value: its position and that value. */
  function FirstHit<P, T>(xs: seq<P>, m: P -> Option<T>): (r: Option<(nat, T)>)
    ensures r.Some? ==>
      && r.value.0 < |xs| && m(xs[r.value.0]) == Some(r.value.1)
      && forall j :: 0 <= j < r.value.0 ==> m(xs[j]).None?
    ensures r.None? ==> forall j :: 0 <= j < |xs| ==> m(xs[j]).None?
  {
    if xs == [] then None
    else if m(xs[0]).Some? then Some((0, m(xs[0]).value))
    else
      match FirstHit(xs[1..], m)
      case None => None
      case Some((k, v)) => Some((k + 1, v))
  }

  /** The places a match may start, in order. */
  function Suffixes(s: string): (r: seq<string>)
    ensures |r| == |s|
    ensures forall i :: 0 <= i < |s| ==> r[i] == s[i..]
  {
    seq(|s|, i requires 0 <= i < |s| => s[i..])
  }

  /** `re.search(pattern, s)`: the match with the leftmost start, and the text its group
      captures. */
  function SearchUnit(s: string, p: UnitPattern): (r: Option<string>)
    ensures r.Some? ==>
      exists i :: 0 <= i < |s| && MatchAt(s[i..], p) == r && forall j :: 0 <= j < i ==> MatchAt(s[j..], p).None?
    ensures r.None? ==> forall i :: 0 <= i < |s| ==> MatchAt(s[i..], p).None?
  {
    match FirstHit(Suffixes(s), t => MatchAt(t, p))
    case None => None
    case Some((i, num)) => Some(num)
  }

  /** `float(num.replace(",", "."))`. */
  function SizeValue(num: string): (r: real)
    ensures r >= 0.0
  {
    DecimalValue(ReplaceChar(num, ',', '.'))
  }

  /** Only one position is the first hit. */
  lemma FirstHitUnique<P, T>(xs: seq<P>, m: P -> Option<T>, k: nat)
    requires k < |xs| && m(xs[k]).Some? && forall j :: 0 <= j < k ==> m(xs[j]).None?
    ensures forall i :: 0 <= i < |xs| && m(xs[i]).Some? && (forall j :: 0 <= j < i ==> m(xs[j]).None?) ==> i == k
  {
  }

  /** The unit and size of the first of `patterns` that `hit` finds, or one piece. */
  function ExtractWith(patterns: seq<UnitPattern>, hit: UnitPattern -> Option<string>): (r: (string, real))
    ensures r.1 >= 0.0
    ensures r.0 == "stuk" || exists k :: 0 <= k < |patterns| && r.0 == patterns[k].unit
    ensures (forall k :: 0 <= k < |patterns| ==> hit(patterns[k]).None?) ==> r == ("stuk", 1.0)
    ensures forall k :: 0 <= k < |patterns| && hit(patterns[k]).Some?
                        && (forall j :: 0 <= j < k ==> hit(patterns[j]).None?) ==>
      r == (patterns[k].unit, SizeValue(hit(patterns[k]).value))
  {
    match FirstHit(patterns, hit)
    case None => ("stuk", 1.0)
    case Some((k, num)) =>
      FirstHitUnique(patterns, hit, k);
      (patterns[k].unit, SizeValue(num))
  }

  /** `_extract_unit_info`: the product text lowercased, then the patterns tried in order. */
  function ExtractUnitInfo(text: string): (r: (string, real))
    ensures r.0 in Units
    ensures r.1 >= 0.0
  {
    var r := ExtractWith(UnitPatterns, p => SearchUnit(Lower(text), p));
    PatternUnits();
    r
  }

  /** Every pattern names one of the five units. */
  lemma PatternUnits()
    ensures "stuk" in Units
    ensures forall k :: 0 <= k < |UnitPatterns| ==> UnitPatterns[k].unit in Units
  {
  }

  /** The first pattern that matches anywhere in the lowercased text decides, even when a
      later one matches earlier in the text; with no match the answer is one piece. */
  lemma ExtractUnitInfoPriority(text: string, k: nat)
    requires k < |UnitPatterns|
    requires SearchUnit(Lower(text), UnitPatterns[k]).Some?
    requires forall j :: 0 <= j < k ==> SearchUnit(Lower(text), UnitPatterns[j]).None?
    ensures ExtractUnitInfo(text) ==
      (UnitPatterns[k].unit, SizeValue(SearchUnit(Lower(text), UnitPatterns[k]).value))
  {
  }

  lemma ExtractUnitInfoDefault(text: string)
    requires forall k :: 0 <= k < |UnitPatterns| ==> SearchUnit(Lower(text), UnitPatterns[k]).None?
    ensures ExtractUnitInfo(text) == ("stuk", 1.0)
  {
  }

  /** Upper and lower case give the same unit and size. */
  lemma ExtractUnitInfoIgnoresCase(text: string)
    ensures ExtractUnitInfo(Lower(text)) == ExtractUnitInfo(text)
  {
    LowerIdempotent(text);
  }

  /** A worked case: "Melk 1L" is one liter. */
  lemma ExtractUnitInfoOneLiter()
    ensures ExtractUnitInfo("Melk 1L") == ("liter", 1.0)
  {
    LowerMelk();
    SearchUnitOneLiter();
    ExtractUnitInfoPriority("Melk 1L", 0);
    SizeValueOne();
  }

  /** Lower-casing the worked case. */
  lemma LowerMelk()
    ensures Lower("Melk 1L") == "melk 1l"
  {
  }

  /** The liter pattern first matches "melk 1l" at the digit, capturing "1". */
  lemma SearchUnitOneLiter()
    ensures SearchUnit("melk 1l", UnitPatterns[0]) == Some("1")
  {
    var t := "melk 1l";
    var liter := UnitPatterns[0];
    MatchAtFindsWhole(0, "1", "", "");
    assert t[5..] == "1" + "" + liter.word + "";
    forall j | 0 <= j < 5
      ensures MatchAt(t[j..], liter).None?
    {
      assert t[j..][0] == t[j];
    }
  }

  /** `float("1")` is 1.0. */
  lemma SizeValueOne()
    ensures SizeValue("1") == 1.0
  {
    assert ReplaceChar("1", ',', '.') == "1";
    DecimalValueOfInteger("1");
    assert Digits("1") == 1;
  }
}
