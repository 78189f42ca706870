/** The string operations the price-comparison code relies on: `str.lower`, `str.strip`,
    the `in` substring test, `str.replace` on one character, and the whitespace class `\s`. */
module Text {

  /** Python's `str.isspace` (and the regular-expression class `\s` on `str` patterns). */
  predicate IsSpace(c: char)
    ensures IsSpace(c) ==> !IsDigit(c) && c != '.' && c != ','
  {
    c in {' ', '\t', '\n', '\r', '\U{000B}', '\U{000C}', '\U{001C}', '\U{001D}', '\U{001E}',
          '\U{001F}', '\U{0085}', '\U{00A0}', '\U{1680}', '\U{2000}', '\U{2001}', '\U{2002}',
          '\U{2003}', '\U{2004}', '\U{2005}', '\U{2006}', '\U{2007}', '\U{2008}', '\U{2009}',
          '\U{200A}', '\U{2028}', '\U{2029}', '\U{202F}', '\U{205F}', '\U{3000}'}
  }

  predicate IsDigit(c: char) {
    '0' <= c <= '9'
  }

  predicate IsUpper(c: char) {
    'A' <= c <= 'Z'
  }

  function LowerChar(c: char): (r: char)
    ensures !IsUpper(r)
    ensures !IsUpper(c) ==> r == c
  {
    if IsUpper(c) then (c as int - 'A' as int + 'a' as int) as char else c
  }

  /** `s.lower()` on the ASCII letters. */
  function Lower(s: string): (r: string)
    ensures |r| == |s|
    ensures forall i :: 0 <= i < |s| ==> r[i] == LowerChar(s[i])
  {
    seq(|s|, i requires 0 <= i < |s| => LowerChar(s[i]))
  }

  lemma LowerIdempotent(s: string)
    ensures Lower(Lower(s)) == Lower(s)
  {
  }

  /** Drops leading whitespace. */
  function TrimStart(s: string): (r: string)
    ensures |r| <= |s|
    ensures r == s[|s| - |r|..]
    ensures r == [] || !IsSpace(r[0])
  {
    if s != [] && IsSpace(s[0]) then TrimStart(s[1..]) else s
  }

  /** Drops trailing whitespace. */
  function TrimEnd(s: string): (r: string)
    ensures |r| <= |s|
    ensures r == s[..|r|]
    ensures r == [] || !IsSpace(r[|r| - 1])
  {
    if s != [] && IsSpace(s[|s| - 1]) then TrimEnd(s[..|s| - 1]) else s
  }

  /** `s.strip()`. */
  function Strip(s: string): string {
    TrimEnd(TrimStart(s))
  }

  /** Everything `TrimStart` drops is whitespace. */
  lemma {:induction false} TrimStartCutsSpace(s: string)
    ensures forall j :: 0 <= j < |s| - |TrimStart(s)| ==> IsSpace(s[j])
  {
    if s != [] && IsSpace(s[0]) {
      TrimStartCutsSpace(s[1..]);
    }
  }

  /** Everything `TrimEnd` drops is whitespace. */
  lemma {:induction false} TrimEndCutsSpace(s: string)
    ensures forall j :: |TrimEnd(s)| <= j < |s| ==> IsSpace(s[j])
  {
    if s != [] && IsSpace(s[|s| - 1]) {
      TrimEndCutsSpace(s[..|s| - 1]);
    }
  }

  /** The stripped text is the piece of `s` after its leading blanks. */
  lemma StripIsPiece(s: string)
    ensures |s| - |TrimStart(s)| + |Strip(s)| <= |s|
    ensures Strip(s) == s[|s| - |TrimStart(s)|..|s| - |TrimStart(s)| + |Strip(s)|]
  {
    var t := TrimStart(s);
    var i := |s| - |t|;
    var u := TrimEnd(t);
    assert s[i..i + |u|] == t[..|u|];
  }

  /** What `strip()` cuts off on either side is whitespace. */
  lemma StripCutsSpace(s: string)
    ensures forall j :: 0 <= j < |s| - |TrimStart(s)| ==> IsSpace(s[j])
    ensures forall j :: |s| - |TrimStart(s)| + |Strip(s)| <= j < |s| ==> IsSpace(s[j])
  {
    var t := TrimStart(s);
    var i := |s| - |t|;
    TrimStartCutsSpace(s);
    TrimEndCutsSpace(t);
    forall j | i + |TrimEnd(t)| <= j < |s|
      ensures IsSpace(s[j])
    {
      assert s[j] == t[j - i];
    }
  }

  /** The stripped text neither starts nor ends with whitespace. */
  lemma StripEdges(s: string)
    ensures Strip(s) == [] || (!IsSpace(Strip(s)[0]) && !IsSpace(Strip(s)[|Strip(s)| - 1]))
  {
    var t := TrimStart(s);
    var u := TrimEnd(t);
    if u != [] {
      assert u[0] == t[0];
    }
  }

  /** `strip()` yields the piece of `s` after its leading blanks; it neither starts nor ends
      with whitespace, and everything cut off on either side is whitespace. */
  lemma StripTrims(s: string)
    ensures |s| - |TrimStart(s)| + |Strip(s)| <= |s|
    ensures Strip(s) == s[|s| - |TrimStart(s)|..|s| - |TrimStart(s)| + |Strip(s)|]
    ensures forall j :: 0 <= j < |s| - |TrimStart(s)| ==> IsSpace(s[j])
    ensures forall j :: |s| - |TrimStart(s)| + |Strip(s)| <= j < |s| ==> IsSpace(s[j])
    ensures Strip(s) == [] || (!IsSpace(Strip(s)[0]) && !IsSpace(Strip(s)[|Strip(s)| - 1]))
  {
    StripIsPiece(s);
    StripCutsSpace(s);
    StripEdges(s);
  }

  /** Python's `needle in haystack` for strings. */
  predicate Contains(haystack: string, needle: string)
    ensures Contains(haystack, needle) <==> exists i :: 0 <= i <= |haystack| && needle <= haystack[i..]
    decreases |haystack|
  {
    assert haystack[0..] == haystack;
    assert forall i :: 1 <= i <= |haystack| ==> haystack[1..][i - 1..] == haystack[i..];
    needle <= haystack || (haystack != [] && Contains(haystack[1..], needle))
  }

  /** `s.replace(a, b)` for single characters. */
  function ReplaceChar(s: string, a: char, b: char): (r: string)
    ensures |r| == |s|
    ensures forall i :: 0 <= i < |s| ==> r[i] == (if s[i] == a then b else s[i])
  {
    seq(|s|, i requires 0 <= i < |s| => if s[i] == a then b else s[i])
  }

  /** `s.replace(c, "")` for a single character. */
  function RemoveChar(s: string, c: char): (r: string)
    ensures c !in r
    ensures |r| <= |s|
  {
    if s == [] then [] else (if s[0] == c then [] else [s[0]]) + RemoveChar(s[1..], c)
  }
}
