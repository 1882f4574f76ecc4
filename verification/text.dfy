/** Character and string operations with the meaning the JavaScript runtime
    gives them: white space as `trim()` and the regex class `\s` see it,
    ASCII lower-casing, substring search (`includes`), decimal rendering of
    integers and the digit-prefix reading of `parseInt(s, 10)` and
    `parseFloat(s)`. */
module Text {
  import opened Wrappers

  // ---------------------------------------------------------------------
  // White space and trimming
  // ---------------------------------------------------------------------

  /** ECMAScript WhiteSpace and LineTerminator code points: the set that
      `trim()`, the leading skip of `parseInt`/`parseFloat` and `\s` share. */
  predicate IsWhitespace(c: char) {
    || c == ' '
    || ('\t' <= c <= '\r')
    || c == '\U{00A0}' || c == '\U{1680}'
    || ('\U{2000}' <= c <= '\U{200A}')
    || c == '\U{2028}' || c == '\U{2029}' || c == '\U{202F}' || c == '\U{205F}'
    || c == '\U{3000}' || c == '\U{FEFF}'
  }

  /** Every character is white space: exactly the strings whose `trim()` is
      empty (see `Trim`). */
  predicate IsBlank(s: string) {
    forall i :: 0 <= i < |s| ==> IsWhitespace(s[i])
  }

  /** `trimStart()`: drops the leading white-space run, keeps the rest. */
  function TrimStart(s: string): (r: string)
    ensures |r| <= |s| && r == s[|s| - |r|..]
    ensures r == [] || !IsWhitespace(r[0])
    ensures forall i :: 0 <= i < |s| - |r| ==> IsWhitespace(s[i])
  {
    if |s| > 0 && IsWhitespace(s[0]) then TrimStart(s[1..]) else s
  }

  /** `trimEnd()`: drops the trailing white-space run, keeps the rest. */
  function TrimEnd(s: string): (r: string)
    ensures |r| <= |s| && r == s[..|r|]
    ensures r == [] || !IsWhitespace(r[|r| - 1])
    ensures forall i :: |r| <= i < |s| ==> IsWhitespace(s[i])
  {
    if |s| > 0 && IsWhitespace(s[|s| - 1]) then TrimEnd(s[..|s| - 1]) else s
  }

  /** `trim()`. The result is empty exactly when the input is blank, and
      otherwise starts and ends with a non-white-space character. */
  function Trim(s: string): (r: string)
    ensures |r| <= |s|
    ensures r == [] <==> IsBlank(s)
    ensures r != [] ==> !IsWhitespace(r[0]) && !IsWhitespace(r[|r| - 1])
  {
    var t := TrimStart(s);
    var r := TrimEnd(t);
    r
  }

  /** A string with no white space at either end is its own `trim()`. */
  lemma {:induction false} TrimOfTrimmed(s: string)
    requires s != [] && !IsWhitespace(s[0]) && !IsWhitespace(s[|s| - 1])
    ensures Trim(s) == s
  {
    assert TrimStart(s) == s;
    assert TrimEnd(s) == s;
  }

  /** `trimStart()` drops a blank prefix in front of a non-white-space
      character and nothing more. */
  lemma {:induction false} TrimStartOfPadded(pad: string, rest: string)
    requires IsBlank(pad) && rest != [] && !IsWhitespace(rest[0])
    ensures TrimStart(pad + rest) == rest
  {
    if pad == [] {
      assert pad + rest == rest;
    } else {
      assert (pad + rest)[1..] == pad[1..] + rest;
      TrimStartOfPadded(pad[1..], rest);
    }
  }

  /** `trimEnd()` drops a blank suffix after a non-white-space character
      and nothing more. */
  lemma {:induction false} TrimEndOfPadded(rest: string, pad: string)
    requires IsBlank(pad) && rest != [] && !IsWhitespace(rest[|rest| - 1])
    ensures TrimEnd(rest + pad) == rest
  {
    if pad == [] {
      assert rest + pad == rest;
    } else {
      var s := rest + pad;
      assert s[..|s| - 1] == rest + pad[..|pad| - 1];
      TrimEndOfPadded(rest, pad[..|pad| - 1]);
    }
  }

  /** `trim()` of a trimmed string with blank padding on both sides gives
      the string back. */
  lemma TrimOfPadded(before: string, core: string, after: string)
    requires IsBlank(before) && IsBlank(after)
    requires core != [] && !IsWhitespace(core[0]) && !IsWhitespace(core[|core| - 1])
    ensures Trim(before + core + after) == core
  {
    assert (core + after)[0] == core[0];
    assert before + core + after == before + (core + after);
    TrimStartOfPadded(before, core + after);
    TrimEndOfPadded(core, after);
  }

  // ---------------------------------------------------------------------
  // Case and substring search
  // ---------------------------------------------------------------------

  /** `toLowerCase()` on one character, for the ASCII letters. */
  function ToLowerChar(c: char): char {
    if 'A' <= c <= 'Z' then (c as int + 32) as char else c
  }

  predicate IsUpperAscii(c: char) {
    'A' <= c <= 'Z'
  }

  /** `toLowerCase()` for ASCII text: same length, no upper-case letter left,
      every other character untouched. */
  function ToLower(s: string): (r: string)
    ensures |r| == |s|
    ensures forall i :: 0 <= i < |r| ==> !IsUpperAscii(r[i])
    ensures forall i :: 0 <= i < |s| && !IsUpperAscii(s[i]) ==> r[i] == s[i]
  {
    seq(|s|, i requires 0 <= i < |s| => ToLowerChar(s[i]))
  }

  /** Lower-casing twice is lower-casing once. */
  lemma ToLowerIdempotent(s: string)
    ensures ToLower(ToLower(s)) == ToLower(s)
  {
  }

  predicate StartsWith(s: string, prefix: string) {
    |prefix| <= |s| && s[..|prefix|] == prefix
  }

  /** `needle` occurs in `haystack` starting at index `i`. */
  predicate OccursAt(haystack: string, needle: string, i: nat) {
    i + |needle| <= |haystack| && haystack[i..i + |needle|] == needle
  }

  /** `haystack.includes(needle)`. */
  predicate Contains(haystack: string, needle: string)
    decreases |haystack|
  {
    StartsWith(haystack, needle) || (|haystack| > 0 && Contains(haystack[1..], needle))
  }

  /** `Contains` finds the needle at some position of the haystack, and
      every occurrence is found. */
  lemma {:induction false} ContainsIffOccurs(haystack: string, needle: string)
    ensures Contains(haystack, needle) <==> exists i: nat :: OccursAt(haystack, needle, i)
    decreases |haystack|
  {
    if StartsWith(haystack, needle) {
      assert OccursAt(haystack, needle, 0);
    } else if |haystack| > 0 {
      ContainsIffOccurs(haystack[1..], needle);
      if Contains(haystack[1..], needle) {
        var j: nat :| OccursAt(haystack[1..], needle, j);
        assert haystack[j + 1..j + 1 + |needle|] == haystack[1..][j..j + |needle|];
        assert OccursAt(haystack, needle, j + 1);
      }
      if exists i: nat :: OccursAt(haystack, needle, i) {
        var i: nat :| OccursAt(haystack, needle, i);
        assert i != 0;
        assert haystack[1..][i - 1..i - 1 + |needle|] == haystack[i..i + |needle|];
        assert OccursAt(haystack[1..], needle, i - 1);
      }
    }
  }

  /** The empty needle is found in every string (so an empty search term
      keeps every row). */
  lemma EmptyIsEverywhere(haystack: string)
    ensures Contains(haystack, "")
  {
  }

  /** `s.replace(/\s+/g, rep)` for the one-character replacement `rep`:
      every maximal white-space run becomes one `rep`. */
  function ReplaceWhitespaceRuns(s: string, rep: char): (r: string)
    decreases |s|
  {
    if s == [] then []
    else if IsWhitespace(s[0]) then
      var rest := TrimStart(s);
      [rep] + ReplaceWhitespaceRuns(rest, rep)
    else [s[0]] + ReplaceWhitespaceRuns(s[1..], rep)
  }

  /** With a non-white-space replacement the result has no white space left,
      is no longer than the input, and a string without white space comes
      back unchanged. */
  lemma {:induction false} ReplaceWhitespaceRunsSpec(s: string, rep: char)
    requires !IsWhitespace(rep)
    ensures var r := ReplaceWhitespaceRuns(s, rep);
            && |r| <= |s|
            && (forall i :: 0 <= i < |r| ==> !IsWhitespace(r[i]))
            && ((forall i :: 0 <= i < |s| ==> !IsWhitespace(s[i])) ==> r == s)
    decreases |s|
  {
    if s == [] {
    } else if IsWhitespace(s[0]) {
      ReplaceWhitespaceRunsSpec(TrimStart(s), rep);
    } else {
      ReplaceWhitespaceRunsSpec(s[1..], rep);
      var r := ReplaceWhitespaceRuns(s, rep);
      assert r == [s[0]] + ReplaceWhitespaceRuns(s[1..], rep);
      if forall i :: 0 <= i < |s| ==> !IsWhitespace(s[i]) {
        assert forall i :: 0 <= i < |s[1..]| ==> !IsWhitespace(s[1..][i]);
      }
    }
  }

  // ---------------------------------------------------------------------
  // Decimal digits
  // ---------------------------------------------------------------------

  predicate IsDigit(c: char) {
    '0' <= c <= '9'
  }

  predicate AllDigits(s: string) {
    forall i :: 0 <= i < |s| ==> IsDigit(s[i])
  }

  function DigitValue(c: char): nat
    requires IsDigit(c)
  {
    c as int - '0' as int
  }

  function DigitChar(d: nat): (c: char)
    requires d < 10
    ensures IsDigit(c) && DigitValue(c) == d
  {
    ('0' as int + d) as char
  }

  /** The value of a decimal digit string, most significant digit first. */
  function DigitsValue(s: string): nat
    requires AllDigits(s)
    decreases |s|
  {
    if s == [] then 0 else DigitsValue(s[..|s| - 1]) * 10 + DigitValue(s[|s| - 1])
  }

  /** Decimal rendering of a natural number, no leading zeros. */
  function NatToString(n: nat): (r: string)
    ensures r != [] && AllDigits(r)
    ensures DigitsValue(r) == n
    ensures |r| > 1 ==> r[0] != '0'
  {
    if n < 10 then [DigitChar(n)]
    else
      var r := NatToString(n / 10) + [DigitChar(n % 10)];
      assert r[..|r| - 1] == NatToString(n / 10);
      r
  }

  /** `String(n)` / `n.toString()` for an integer. */
  function IntToString(n: int): (r: string)
    ensures r != []
    ensures n < 0 ==> r[0] == '-' && AllDigits(r[1..]) && DigitsValue(r[1..]) == -n
    ensures n >= 0 ==> AllDigits(r) && DigitsValue(r) == n
  {
    if n < 0 then "-" + NatToString(-n) else NatToString(n)
  }

  /** Length of the leading run of decimal digits. */
  function LeadingDigits(s: string): (k: nat)
    ensures k <= |s|
    ensures AllDigits(s[..k])
    ensures k == |s| || !IsDigit(s[k])
  {
    if |s| > 0 && IsDigit(s[0]) then
      var k := 1 + LeadingDigits(s[1..]);
      assert s[..k] == [s[0]] + s[1..][..k - 1];
      k
    else 0
  }

  /** Splits an optional leading sign off: (negative?, rest). */
  function SplitSign(t: string): (bool, string) {
    if |t| > 0 && t[0] == '-' then (true, t[1..])
    else if |t| > 0 && t[0] == '+' then (false, t[1..])
    else (false, t)
  }

  /** The value of the leading digit run, `None` when there is none. */
  function UnsignedPrefix(rest: string): (r: Option<nat>)
    ensures r.None? <==> rest == [] || !IsDigit(rest[0])
  {
    var k := LeadingDigits(rest);
    if k == 0 then None else Some(DigitsValue(rest[..k]))
  }

  /** `parseInt(s, 10)`: skip leading white space, read an optional sign and
      the longest run of digits after it; `None` is `NaN` (no digit). */
  function ParseIntPrefix(s: string): (r: Option<int>)
  {
    var (neg, rest) := SplitSign(TrimStart(s));
    match UnsignedPrefix(rest)
    case None => None
    case Some(v) => Some(if neg then -(v as int) else v as int)
  }

  lemma {:induction false} LeadingDigitsOfDigits(s: string)
    requires AllDigits(s)
    ensures LeadingDigits(s) == |s|
    decreases |s|
  {
    if |s| > 0 {
      LeadingDigitsOfDigits(s[1..]);
    }
  }

  /** A whole digit string is read as its value. */
  lemma UnsignedPrefixOfDigits(d: string)
    requires d != [] && AllDigits(d)
    ensures UnsignedPrefix(d) == Some(DigitsValue(d))
  {
    LeadingDigitsOfDigits(d);
    assert d[..|d|] == d;
  }

  /** How a rendered integer splits: no leading white space, the sign, then
      the digits of the magnitude. */
  lemma SignSplitOfIntToString(n: int)
    ensures TrimStart(IntToString(n)) == IntToString(n)
    ensures SplitSign(IntToString(n)) == (n < 0, NatToString(if n < 0 then -n else n))
  {
    var s := IntToString(n);
    assert !IsWhitespace(s[0]) by {
      if n < 0 { assert s[0] == '-'; } else { assert IsDigit(s[0]); }
    }
    if n < 0 {
      assert s[1..] == NatToString(-n);
    }
  }

  /** The integer reading of a rendered integer is that integer:
      `parseInt(String(n), 10) == n`. */
  lemma {:induction false} ParseIntOfIntToString(n: int)
    ensures ParseIntPrefix(IntToString(n)) == Some(n)
  {
    SignSplitOfIntToString(n);
    var d := NatToString(if n < 0 then -n else n);
    UnsignedPrefixOfDigits(d);
  }

  /** 10 to the power `k`. */
  function Pow10(k: nat): (p: nat)
    ensures p >= 1
  {
    if k == 0 then 1 else 10 * Pow10(k - 1)
  }

  /** The unsigned decimal at the start of `rest`: integer digits, then an
      optional `.` and fraction digits; at least one digit must be read. */
  function UnsignedDecimalPrefix(rest: string): Option<real> {
    var k := LeadingDigits(rest);
    var afterInt := rest[k..];
    var f := if |afterInt| > 0 && afterInt[0] == '.' then LeadingDigits(afterInt[1..]) else 0;
    if k == 0 && f == 0 then None
    else
      var frac := if f == 0 then 0.0 else DigitsValue(afterInt[1..][..f]) as real / Pow10(f) as real;
      Some(DigitsValue(rest[..k]) as real + frac)
  }

  /** `parseFloat(s)` for plain decimal text: skip leading white space, read
      an optional sign and an unsigned decimal; `None` is `NaN`. */
  function ParseFloatPrefix(s: string): Option<real> {
    var (neg, rest) := SplitSign(TrimStart(s));
    match UnsignedDecimalPrefix(rest)
    case None => None
    case Some(v) => Some(if neg then -v else v)
  }

  /** `parseFloat` reads a rendered integer back as that integer. */
  lemma {:induction false} ParseFloatOfIntToString(n: int)
    ensures ParseFloatPrefix(IntToString(n)) == Some(n as real)
  {
    SignSplitOfIntToString(n);
    var d := NatToString(if n < 0 then -n else n);
    LeadingDigitsOfDigits(d);
    assert d[..|d|] == d;
    assert d[|d|..] == [];
  }
}
