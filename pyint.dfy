/** Python's `int(text)` in base 10, the conversion `size_spec` applies to each
    comma-separated piece, and `str(n)`, the decimal rendering it inverts. */
module PyInt {
  import opened Wrappers
  import opened PyStrings

  predicate IsDigit(c: char) {
    '0' <= c <= '9'
  }

  function DigitValue(c: char): nat
    requires IsDigit(c)
  {
    c as int - '0' as int
  }

  function DigitChar(d: nat): (c: char)
    requires d < 10
    ensures IsDigit(c) && DigitValue(c) == d
  {
    ('0' as int + d) as char
  }

  /** A literal `int()` accepts after an optional sign: decimal digits, where a
      single underscore may stand between two digits. */
  predicate IsDecimalLiteral(s: string) {
    && |s| > 0
    && IsDigit(s[0])
    && IsDigit(s[|s| - 1])
    && LiteralChars(s)
    && NoDoubleUnderscore(s)
  }

  /** No two underscores in a row; with digits at both ends, every underscore
      then stands between two digits. */
  predicate NoDoubleUnderscore(s: string)
    decreases |s|
  {
    |s| < 2 || (!(s[0] == '_' && s[1] == '_') && NoDoubleUnderscore(s[1..]))
  }

  /** Only digits and underscores. */
  predicate LiteralChars(s: string) {
    forall i :: 0 <= i < |s| ==> IsDigit(s[i]) || s[i] == '_'
  }

  /** The number written by digits and underscores, read left to right;
      underscores carry no value. */
  function LiteralValue(s: string): nat
    requires LiteralChars(s)
    decreases |s|
  {
    if s == [] then 0
    else if s[|s| - 1] == '_' then LiteralValue(s[..|s| - 1])
    else 10 * LiteralValue(s[..|s| - 1]) + DigitValue(s[|s| - 1])
  }

  /** The white space `int()` skips around a number: every `str.isspace`
      character except the four ASCII separators U+001C to U+001F. CPython maps
      non-ASCII white space to a blank, keeps ASCII characters as they are, and
      then skips only the C library's `isspace` set (blank, tab, line feed,
      vertical tab, form feed, carriage return), so those four are refused. */
  predicate IsIntSpace(c: char) {
    IsSpace(c) && !('\U{1C}' <= c <= '\U{1F}')
  }

  /** `int(s)`: surrounding `IsIntSpace` white space is ignored, one optional
      `+` or `-` sign, then a decimal literal; anything else is `None` (Python
      raises `ValueError`). */
  function ParseInt(s: string): Option<int> {
    ParseSigned(Strip(s, IsIntSpace))
  }

  /** `int()` after the white space is stripped. */
  function ParseSigned(t: string): Option<int> {
    if |t| > 0 && (t[0] == '+' || t[0] == '-') then
      if IsDecimalLiteral(t[1..]) then
        Some(if t[0] == '-' then 0 - LiteralValue(t[1..]) else LiteralValue(t[1..]))
      else None
    else if IsDecimalLiteral(t) then Some(LiteralValue(t))
    else None
  }

  /** `str(n)` for a natural number: its decimal digits, which read back as `n`. */
  function ShowNat(n: nat): (r: string)
    ensures |r| > 0
    ensures forall i :: 0 <= i < |r| ==> IsDigit(r[i])
    ensures LiteralValue(r) == n
    decreases n
  {
    if n < 10 then [DigitChar(n)]
    else
      var p := ShowNat(n / 10);
      var r := p + [DigitChar(n % 10)];
      assert r[..|r| - 1] == p;
      r
  }

  /** `str(n)`: a minus sign for a negative number, then the digits. */
  function ShowInt(n: int): (r: string)
    ensures |r| > 0 && IsDigit(r[|r| - 1])
    ensures r[0] == '-' || IsDigit(r[0])
  {
    if n < 0 then "-" + ShowNat(-n) else ShowNat(n)
  }

  /** `int(str(n)) == n`: reading back the decimal rendering of any integer. */
  lemma ParseShowInt(n: int)
    ensures ParseInt(ShowInt(n)) == Some(n)
  {
    if n < 0 {
      ParseNegated(ShowNat(-n));
      assert "-" + ShowNat(-n) == ShowInt(n);
    } else {
      ParseDigits(ShowNat(n));
    }
  }

  /** Digits alone are a literal. */
  lemma {:induction false} DigitsLiteral(d: string)
    requires |d| > 0 && forall i :: 0 <= i < |d| ==> IsDigit(d[i])
    ensures IsDecimalLiteral(d)
    decreases |d|
  {
    if |d| > 1 {
      DigitsLiteral(d[1..]);
    }
  }

  /** Digits alone are read by `int()` as their value. */
  lemma ParseDigits(d: string)
    requires |d| > 0 && forall i :: 0 <= i < |d| ==> IsDigit(d[i])
    ensures ParseInt(d) == Some(LiteralValue(d))
  {
    StripCharsUntouched(d);
    assert ParseInt(d) == ParseSigned(d);
    ParseSignedDigits(d);
  }

  /** Without a sign, digits are their own value. */
  lemma ParseSignedDigits(d: string)
    requires |d| > 0 && forall i :: 0 <= i < |d| ==> IsDigit(d[i])
    ensures ParseSigned(d) == Some(LiteralValue(d))
  {
    DigitsLiteral(d);
  }

  /** A text that starts with a sign or a digit and ends with a digit has no
      white space to strip. */
  lemma StripCharsUntouched(t: string)
    requires |t| > 0 && (t[0] == '-' || IsDigit(t[0])) && IsDigit(t[|t| - 1])
    ensures Strip(t, IsIntSpace) == t
  {
    assert !IsIntSpace(t[0]) && !IsIntSpace(t[|t| - 1]);
  }

  /** A minus sign before digits negates their value. */
  lemma ParseNegated(d: string)
    requires |d| > 0 && forall i :: 0 <= i < |d| ==> IsDigit(d[i])
    ensures ParseInt("-" + d) == Some(0 - LiteralValue(d))
  {
    var t := "-" + d;
    assert t[0] == '-' && t[|t| - 1] == d[|d| - 1];
    StripCharsUntouched(t);
    DigitsLiteral(d);
    ParseSignedMinus(d);
  }

  /** A minus sign before a literal negates its value. */
  lemma ParseSignedMinus(d: string)
    requires IsDecimalLiteral(d)
    ensures ParseSigned("-" + d) == Some(0 - LiteralValue(d))
  {
    assert ("-" + d)[1..] == d;
  }

  /** `int()` ignores surrounding white space: a number padded with
      `IsIntSpace` characters on either side reads as the number. */
  lemma ParseIntIgnoresSpace(n: int, pre: string, post: string)
    requires forall i :: 0 <= i < |pre| ==> IsIntSpace(pre[i])
    requires forall i :: 0 <= i < |post| ==> IsIntSpace(post[i])
    ensures ParseInt(pre + ShowInt(n) + post) == Some(n)
  {
    var t := ShowInt(n);
    assert !IsIntSpace(t[0]) && !IsIntSpace(t[|t| - 1]);
    StripPadded(pre, t, post, IsIntSpace);
    ParseShowInt(n);
    StripCharsUntouched(t);
  }

  /** The ASCII separators U+001C to U+001F are white space to `str.isspace`
      but not to `int()`: a number they pad is refused. */
  lemma ParseIntRejectsSeparators()
    ensures IsSpace('\U{1C}') && ParseInt("\U{1C}5") == None
    ensures IsSpace('\U{1F}') && ParseInt("5\U{1F}") == None
  {
    var t := "\U{1C}5";
    assert !IsIntSpace(t[0]) && !IsIntSpace(t[1]);
    assert Strip(t, IsIntSpace) == t;
    var u := "5\U{1F}";
    assert !IsIntSpace(u[0]) && !IsIntSpace(u[1]);
    assert Strip(u, IsIntSpace) == u;
  }

  /** `int()` accepts a sign, leading zeros and a single underscore between
      two digits. */
  lemma ParseIntAcceptsSignAndUnderscore()
    ensures ParseInt("-0_5") == Some(-5)
  {
    var t := "-0_5";
    assert Strip(t, IsIntSpace) == t by {
      StripCharsUntouched(t);
    }
    assert IsDecimalLiteral("0_5") by {
      assert "0_5"[1..] == "_5";
      assert "_5"[1..] == "5";
    }
    assert LiteralValue("0_5") == 5 by {
      assert "0_5"[..2] == "0_";
      assert "0_"[..1] == "0";
    }
    assert ParseSigned(t) == Some(-5) by {
      ParseSignedMinus("0_5");
      assert "-" + "0_5" == t;
    }
  }

  /** `int()` rejects a blank text. */
  lemma ParseIntRejectsBlank()
    ensures ParseInt("  ") == None
  {
    assert Strip("  ", IsIntSpace) == "";
  }

  /** `int()` rejects a doubled underscore. */
  lemma ParseIntRejectsDoubleUnderscore()
    ensures ParseInt("1__0") == None
  {
    var t := "1__0";
    assert !IsIntSpace(t[0]) && !IsIntSpace(t[3]);
    assert Strip(t, IsIntSpace) == t;
    assert t[1] == '_' && t[2] == '_';
  }

  /** `int()` rejects a space after the sign. */
  lemma ParseIntRejectsSpaceAfterSign()
    ensures ParseInt("- 5") == None
  {
    var t := "- 5";
    assert !IsIntSpace(t[0]) && !IsIntSpace(t[2]);
    assert Strip(t, IsIntSpace) == t;
    assert t[1..] == " 5";
  }
}
