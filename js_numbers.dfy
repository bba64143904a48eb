/**
 * The two JavaScript number builtins the array rep relies on, restricted to
 * integers: `parseInt(x, 10)` and `Number.prototype.toString()`. Integers are
 * unbounded here; JavaScript's rounding of values that are not exactly
 * representable as doubles, and its exponent form from 1e21, are not modelled.
 */
module JsNumbers {
  import opened Wrappers

  predicate IsDigit(c: char) { '0' <= c <= '9' }

  predicate AllDigits(s: string) { forall i :: 0 <= i < |s| ==> IsDigit(s[i]) }

  /** A decimal numeral without superfluous leading zeros: "0", "7", "120", but not "" or "007". */
  predicate IsCanonicalNumeral(s: string) {
    |s| >= 1 && AllDigits(s) && (s[0] == '0' ==> |s| == 1)
  }

  /** The text that `toString()` gives for some integer: "0", "42", "-42", but not "-0", "+1" or "01". */
  predicate IsCanonicalInteger(s: string) {
    IsCanonicalNumeral(s) || (|s| >= 2 && s[0] == '-' && s[1] != '0' && IsCanonicalNumeral(s[1..]))
  }

  function DigitChar(d: nat): (c: char)
    requires d < 10
    ensures IsDigit(c)
  {
    ('0' as int + d) as char
  }

  function DigitValue(c: char): (d: nat)
    requires IsDigit(c)
    ensures d < 10 && DigitChar(d) == c
  {
    c as int - '0' as int
  }

  /** The decimal text of a non-negative integer, as `toString()` writes it. */
  function NatToString(n: nat): (s: string)
    ensures |s| >= 1 && AllDigits(s)
    ensures s[0] == '0' <==> n == 0
    ensures IsCanonicalNumeral(s)
    decreases n
  {
    if n < 10 then [DigitChar(n)] else NatToString(n / 10) + [DigitChar(n % 10)]
  }

  /** `Number.prototype.toString()` on an integer value: a minus sign exactly for negative values, then a canonical numeral. */
  function IntToString(y: int): (s: string)
    ensures IsCanonicalInteger(s)
    ensures |s| >= 1 && (s[0] == '-' <==> y < 0)
  {
    if y < 0 then "-" + NatToString(-y) else NatToString(y)
  }

  /** The value of a string of decimal digits (0 for the empty string). */
  function DigitsValue(s: string): nat
    requires AllDigits(s)
    decreases |s|
  {
    if s == [] then 0 else 10 * DigitsValue(s[..|s| - 1]) + DigitValue(s[|s| - 1])
  }

  /**
   * The characters `parseInt` skips before the numeral: the WhiteSpace and
   * LineTerminator characters of ECMAScript.
   */
  predicate IsJsWhitespace(c: char) {
    c == '\t' || c == '\n' || c == '\U{000B}' || c == '\U{000C}' || c == '\r' || c == ' '
    || c == '\U{00A0}' || c == '\U{1680}' || ('\U{2000}' <= c <= '\U{200A}')
    || c == '\U{2028}' || c == '\U{2029}' || c == '\U{202F}' || c == '\U{205F}'
    || c == '\U{3000}' || c == '\U{FEFF}'
  }

  function TrimStart(s: string): (t: string)
    ensures t == [] || !IsJsWhitespace(t[0])
    decreases |s|
  {
    if s != [] && IsJsWhitespace(s[0]) then TrimStart(s[1..]) else s
  }

  /** The longest prefix of `s` made of decimal digits. */
  function LeadingDigits(s: string): (d: string)
    ensures AllDigits(d)
    decreases |s|
  {
    if s != [] && IsDigit(s[0]) then [s[0]] + LeadingDigits(s[1..]) else []
  }

  /**
   * `parseInt(x, 10)`: skip leading white space, read an optional sign, then
   * the longest run of decimal digits; no digits at all gives NaN (`None`).
   */
  function ParseInt(x: string): (r: Option<int>)
    ensures var t := TrimStart(x); (t == [] || !(IsDigit(t[0]) || t[0] == '-' || t[0] == '+')) ==> r.None?
  {
    ParseSigned(TrimStart(x))
  }

  /** `parseInt` after the leading white space: an optional sign, then digits. */
  function ParseSigned(t: string): (r: Option<int>)
    ensures (t == [] || !(IsDigit(t[0]) || t[0] == '-' || t[0] == '+')) ==> r.None?
    ensures t != [] && IsDigit(t[0]) ==> r == Some(DigitsValue(LeadingDigits(t)))
    ensures r.Some? && r.value < 0 ==> t[0] == '-'
  {
    var negative := t != [] && t[0] == '-';
    var unsigned := if t != [] && (t[0] == '-' || t[0] == '+') then t[1..] else t;
    var digits := LeadingDigits(unsigned);
    var magnitude: int := DigitsValue(digits);
    if digits == [] then None
    else Some(if negative then -magnitude else magnitude)
  }

  lemma {:induction false} DigitsValueOfNatToString(n: nat)
    ensures DigitsValue(NatToString(n)) == n
    decreases n
  {
    if n >= 10 {
      DigitsValueOfNatToString(n / 10);
      var s := NatToString(n);
      assert s[..|s| - 1] == NatToString(n / 10);
    }
  }

  lemma {:induction false} NonZeroLeadingDigitIsPositive(s: string)
    requires |s| >= 1 && AllDigits(s) && s[0] != '0'
    ensures DigitsValue(s) >= 1
    decreases |s|
  {
    if |s| > 1 {
      NonZeroLeadingDigitIsPositive(s[..|s| - 1]);
    }
  }

  /** A canonical numeral is exactly the text `toString()` gives for its value. */
  lemma {:induction false} NatToStringOfDigitsValue(s: string)
    requires IsCanonicalNumeral(s)
    ensures NatToString(DigitsValue(s)) == s
    decreases |s|
  {
    var last := DigitValue(s[|s| - 1]);
    if |s| == 1 {
      assert DigitsValue(s) == last;
    } else {
      var init := s[..|s| - 1];
      NonZeroLeadingDigitIsPositive(init);
      NatToStringOfDigitsValue(init);
      var v := DigitsValue(init);
      assert DigitsValue(s) == 10 * v + last;
      assert (10 * v + last) / 10 == v && (10 * v + last) % 10 == last;
      assert s == init + [s[|s| - 1]];
    }
  }

  lemma {:induction false} LeadingDigitsOfNumeral(s: string, rest: string)
    requires AllDigits(s)
    requires rest == [] || !IsDigit(rest[0])
    ensures LeadingDigits(s + rest) == s
    decreases |s|
  {
    if s != [] {
      assert (s + rest)[1..] == s[1..] + rest;
      LeadingDigitsOfNumeral(s[1..], rest);
    }
  }

  /** Text that starts with a digit has no white space or sign for `parseInt` to skip. */
  lemma ParseIntOfDigitStart(x: string)
    requires x != [] && IsDigit(x[0])
    ensures ParseInt(x) == Some(DigitsValue(LeadingDigits(x)))
  {
    TrimStartKeeps(x);
  }

  /** `parseInt` reads back a numeral that is followed by anything but a digit. */
  lemma ParseIntOfNumeral(s: string, rest: string)
    requires |s| >= 1 && AllDigits(s)
    requires rest == [] || !IsDigit(rest[0])
    ensures ParseInt(s + rest) == Some(DigitsValue(s))
  {
    var x := s + rest;
    assert x[0] == s[0] && IsDigit(x[0]);
    LeadingDigitsOfNumeral(s, rest);
    ParseIntOfDigitStart(x);
  }

  /** `parseInt` reads a minus sign followed by digits as the negated value. */
  lemma ParseIntOfNegativeNumeral(digits: string)
    requires |digits| >= 1 && AllDigits(digits)
    ensures ParseInt("-" + digits) == Some(-(DigitsValue(digits) as int))
  {
    var x := "-" + digits;
    TrimStartKeeps(x);
    LeadingDigitsOfNumeral(digits, []);
    assert digits + [] == digits;
    ParseSignedOfMinus(x, digits);
  }

  lemma TrimStartKeeps(x: string)
    requires x != [] && !IsJsWhitespace(x[0])
    ensures TrimStart(x) == x
  {
  }

  lemma ParseSignedOfMinus(x: string, digits: string)
    requires x == "-" + digits && LeadingDigits(digits) == digits && digits != []
    ensures ParseSigned(x) == Some(-(DigitsValue(digits) as int))
  {
  }

  /** `parseInt` reads every integer's `toString()` text back as that integer. */
  lemma IntToStringReadsBack(y: int)
    ensures ParseInt(IntToString(y)) == Some(y)
  {
    if y < 0 {
      ParseIntOfNegativeNumeral(NatToString(-y));
      DigitsValueOfNatToString(-y);
    } else {
      ParseIntOfNatToString(y, []);
      assert NatToString(y) + [] == NatToString(y);
    }
  }

  /** `parseInt(String(n) + rest)` is `n` whenever `rest` does not start with a digit. */
  lemma ParseIntOfNatToString(n: nat, rest: string)
    requires rest == [] || !IsDigit(rest[0])
    ensures ParseInt(NatToString(n) + rest) == Some(n)
  {
    ParseIntOfNumeral(NatToString(n), rest);
    DigitsValueOfNatToString(n);
  }
}
