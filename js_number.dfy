/**
 * The two conversions between JavaScript numbers and strings that the storefront relies on:
 * rendering an integer inside a template literal (`${n}`) and reading a string with `Number(s)`.
 * Numbers are modelled as unbounded integers.
 */
module JsNumber {
  import opened Wrappers

  /** The value of `Number(s)`, restricted to the integers; every other reading is `NaN`. */
  datatype Num = NaN | Int(value: int)

  /** JavaScript truthiness of a number: `NaN` and zero are falsy. */
  predicate Truthy(n: Num) {
    n.Int? && n.value != 0
  }

  predicate IsDigit(c: char) {
    '0' <= c <= '9'
  }

  predicate AllDigits(s: string) {
    forall i | 0 <= i < |s| :: IsDigit(s[i])
  }

  function DigitChar(d: nat): (c: char)
    requires d < 10
    ensures IsDigit(c) && c as int - '0' as int == d
  {
    ('0' as int + d) as char
  }

  /** Decimal digits of `n`, most significant first, without leading zeros. */
  function NatToString(n: nat): (s: string)
    ensures |s| >= 1 && AllDigits(s)
    ensures s[0] == '0' ==> n == 0 && s == "0"
    ensures n == 0 ==> s == "0"
    decreases n
  {
    if n < 10 then [DigitChar(n)] else NatToString(n / 10) + [DigitChar(n % 10)]
  }

  /** The value of a string of decimal digits (leading zeros allowed). */
  function DigitsValue(s: string): nat
    requires AllDigits(s)
  {
    if s == [] then 0 else 10 * DigitsValue(s[..|s| - 1]) + (s[|s| - 1] as int - '0' as int)
  }

  /** `${i}` for an integer `i`: a minus sign for negative values, then the decimal digits. */
  function IntToString(i: int): string {
    if i < 0 then "-" + NatToString(-i) else NatToString(i)
  }

  /** An optional sign followed by one or more decimal digits. */
  function ParseInteger(s: string): Option<int> {
    if |s| > 1 && (s[0] == '-' || s[0] == '+') && AllDigits(s[1..]) then
      var magnitude: int := DigitsValue(s[1..]);
      Some(if s[0] == '-' then -magnitude else magnitude)
    else if |s| > 0 && AllDigits(s) then
      Some(DigitsValue(s))
    else
      None
  }

  lemma {:induction false} DigitsValueOfNatToString(n: nat)
    ensures DigitsValue(NatToString(n)) == n
    decreases n
  {
    if n >= 10 {
      var s := NatToString(n);
      assert s[..|s| - 1] == NatToString(n / 10);
      DigitsValueOfNatToString(n / 10);
    }
  }

  /** Reading back what `${i}` renders gives `i`: the rendering loses nothing. */
  lemma IntToStringRoundTrip(i: int)
    ensures ParseInteger(IntToString(i)) == Some(i)
  {
    if i < 0 {
      ParseNegative(-i);
    } else {
      ParseNatural(i);
    }
  }

  lemma ParseNatural(n: nat)
    ensures ParseInteger(NatToString(n)) == Some(n)
  {
    var s := NatToString(n);
    assert IsDigit(s[0]);
    DigitsValueOfNatToString(n);
  }

  lemma ParseNegative(n: nat)
    ensures ParseInteger("-" + NatToString(n)) == Some(-(n as int))
  {
    var s := "-" + NatToString(n);
    assert s[0] == '-' && s[1..] == NatToString(n);
    DigitsValueOfNatToString(n);
  }

  /** Two integers render alike only when they are equal. */
  lemma IntToStringInjective(i: int, j: int)
    requires IntToString(i) == IntToString(j)
    ensures i == j
  {
    IntToStringRoundTrip(i);
    IntToStringRoundTrip(j);
  }

  /** The characters `Number(s)` strips from both ends: white space and line terminators. */
  predicate IsJsWhitespace(c: char) {
    c == '\t' || c == '\n' || c == '\U{000B}' || c == '\U{000C}' || c == '\r' || c == ' '
    || c == '\U{00A0}' || c == '\U{1680}' || ('\U{2000}' <= c <= '\U{200A}')
    || c == '\U{2028}' || c == '\U{2029}' || c == '\U{202F}' || c == '\U{205F}'
    || c == '\U{3000}' || c == '\U{FEFF}'
  }

  function TrimStart(s: string): (r: string)
    ensures |r| <= |s| && r == s[|s| - |r|..]
    ensures forall k | 0 <= k < |s| - |r| :: IsJsWhitespace(s[k])
    ensures r != [] ==> !IsJsWhitespace(r[0])
  {
    if |s| > 0 && IsJsWhitespace(s[0]) then TrimStart(s[1..]) else s
  }

  function TrimEnd(s: string): (r: string)
    ensures |r| <= |s| && r == s[..|r|]
    ensures forall k | |r| <= k < |s| :: IsJsWhitespace(s[k])
    ensures r != [] ==> !IsJsWhitespace(r[|r| - 1])
  {
    if |s| > 0 && IsJsWhitespace(s[|s| - 1]) then TrimEnd(s[..|s| - 1]) else s
  }

  /** `Number(s)`: surrounding white space is ignored, a blank string is 0, anything else not an integer is NaN. */
  function ToNumber(s: string): Num {
    var t := TrimEnd(TrimStart(s));
    if t == [] then Int(0)
    else match ParseInteger(t)
      case Some(v) => Int(v)
      case None => NaN
  }

  /** `Number(`${i}`)` is `i` again. */
  lemma ToNumberRoundTrip(i: int)
    ensures ToNumber(IntToString(i)) == Int(i)
  {
    var s := IntToString(i);
    assert !IsJsWhitespace(s[0]);
    assert TrimStart(s) == s;
    assert !IsJsWhitespace(s[|s| - 1]) by {
      if i < 0 {
        assert s[|s| - 1] == NatToString(-i)[|NatToString(-i)| - 1];
      }
    }
    assert TrimEnd(s) == s;
    IntToStringRoundTrip(i);
  }

  /**
   * A character that can appear in no string `Number` reads as a number, in JavaScript as in this
   * model: not white space and not part of any numeric literal (digits, signs, the decimal point,
   * hexadecimal digits, the radix letters `x`, `o`, `b`, the exponent `e`, or `Infinity`).
   */
  predicate Stray(c: char) {
    !IsDigit(c) && !IsJsWhitespace(c) && c !in "+-.xXoObBeEInfinity"
    && !('a' <= c <= 'f') && !('A' <= c <= 'F')
  }

  /** A string holding a stray character anywhere reads as `NaN`. */
  lemma StrayIsNaN(s: string, k: nat)
    requires k < |s| && Stray(s[k])
    ensures ToNumber(s) == NaN
  {
    NonIntegerIsNaN(s, k);
  }

  /** Trimming removes white space only: every other character of the string survives it. */
  lemma TrimKeeps(s: string, k: nat)
    requires k < |s| && !IsJsWhitespace(s[k])
    ensures s[k] in TrimEnd(TrimStart(s))
  {
    var u := TrimStart(s);
    var off := |s| - |u|;
    assert u[k - off] == s[k];
    assert TrimEnd(u)[k - off] == s[k];
  }

  /** The model's `Number` reads NaN as soon as one character is no digit, sign or white space. */
  lemma NonIntegerIsNaN(s: string, k: nat)
    requires k < |s| && !IsDigit(s[k]) && s[k] != '+' && s[k] != '-' && !IsJsWhitespace(s[k])
    ensures ToNumber(s) == NaN
  {
    var t := TrimEnd(TrimStart(s));
    TrimKeeps(s, k);
    var j :| 0 <= j < |t| && t[j] == s[k];
    NoIntegerWith(t, j);
  }

  /** A string with a character that is neither a digit nor a sign is no integer. */
  lemma NoIntegerWith(t: string, j: nat)
    requires j < |t| && !IsDigit(t[j]) && t[j] != '+' && t[j] != '-'
    ensures ParseInteger(t) == None
  {
    assert !AllDigits(t);
    if j > 0 {
      assert t[1..][j - 1] == t[j];
    }
  }

  /** A string holding only white space reads as 0, so it is falsy like the empty string. */
  lemma BlankIsZero(s: string)
    requires forall k | 0 <= k < |s| :: IsJsWhitespace(s[k])
    ensures ToNumber(s) == Int(0) && !Truthy(ToNumber(s))
  {
  }
}
