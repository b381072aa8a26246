/**
 * The JavaScript number and date conversions p-info.ts relies on: `String(n)`
 * for an integer, unary `+` on a string, and `new Date(ms)`.
 */
module JsNumber {
  import opened JsText

  /**
   * A JavaScript number as far as this model evaluates it: an integer, or NaN.
   * Numerals with a fraction, an exponent, a radix prefix or `Infinity` are
   * not evaluated and read as NaN here.
   */
  datatype Number = Integer(value: int) | NaN

  predicate IsDigit(c: char) {
    '0' <= c <= '9'
  }

  predicate AllDigits(s: string) {
    forall i :: 0 <= i < |s| ==> IsDigit(s[i])
  }

  function DigitValue(c: char): (d: nat)
    requires IsDigit(c)
    ensures d < 10
  {
    c as int - '0' as int
  }

  function DigitChar(d: nat): (c: char)
    requires d < 10
    ensures IsDigit(c) && DigitValue(c) == d
  {
    ('0' as int + d) as char
  }

  /** The value of a string of decimal digits, most significant digit first. */
  function DigitsValue(s: string): nat
    requires AllDigits(s)
  {
    if s == [] then 0 else DigitsValue(s[..|s| - 1]) * 10 + DigitValue(s[|s| - 1])
  }

  /** `String(n)` for a natural number: canonical decimal digits that read back as `n`. */
  function NatToDecimal(n: nat): (r: string)
    ensures r != [] && AllDigits(r)
    ensures r[0] == '0' ==> r == "0"
    ensures DigitsValue(r) == n
  {
    if n < 10 then [DigitChar(n)]
    else
      var r := NatToDecimal(n / 10) + [DigitChar(n % 10)];
      assert r[..|r| - 1] == NatToDecimal(n / 10);
      r
  }

  /**
   * `String(n)` for an integer: a minus sign exactly for a negative number,
   * then the canonical digits of its magnitude; unary `+` reads it back.
   */
  function IntToDecimal(n: int): (r: string)
    ensures r != [] && (r[0] == '-' <==> n < 0)
    ensures var digits := if n < 0 then r[1..] else r;
      && digits != [] && AllDigits(digits)
      && (digits[0] == '0' ==> digits == "0")
      && DigitsValue(digits) == (if n < 0 then -n else n)
    ensures IsDigit(r[|r| - 1])
    ensures NumeralValue(r) == Integer(n)
  {
    if n < 0 then
      var r := "-" + NatToDecimal(-n);
      assert r[1..] == NatToDecimal(-n);
      r
    else NatToDecimal(n)
  }

  /** An optionally signed, non-empty run of decimal digits: the numerals this model evaluates. */
  predicate IsDecimalNumeral(t: string) {
    var digits := if t != [] && (t[0] == '-' || t[0] == '+') then t[1..] else t;
    digits != [] && AllDigits(digits)
  }

  /**
   * Unary `+` on a string (ECMAScript's StringToNumber): surrounding whitespace
   * is ignored and a blank string is 0.
   */
  function ToNumber(s: string): (r: Number)
    ensures r.Integer? <==> Trim(s) == [] || IsDecimalNumeral(Trim(s))
    ensures Trim(s) == [] ==> r == Integer(0)
    ensures r.Integer? && r.value < 0 ==> Trim(s)[0] == '-'
    ensures Trim(s) != [] ==> r == NumeralValue(Trim(s))
  {
    var t := Trim(s);
    if t == [] then Integer(0) else NumeralValue(t)
  }

  /**
   * The value of a numeral with no surrounding whitespace, for the numerals
   * this model evaluates: an optionally signed run of decimal digits; anything
   * else is NaN.
   */
  function NumeralValue(t: string): (r: Number)
    ensures r.Integer? <==> IsDecimalNumeral(t)
    ensures r.Integer? && r.value < 0 ==> t[0] == '-'
    ensures r.Integer? && t[0] == '+' ==> NumeralValue(t[1..]) == r
    ensures r.Integer? && AllDigits(t) ==> r.value == DigitsValue(t)
    ensures r.Integer? && t[0] == '-' ==> AllDigits(t[1..]) && r.value == -(DigitsValue(t[1..]) as int)
  {
    if |t| > 1 && t[0] == '-' && AllDigits(t[1..]) then Integer(-(DigitsValue(t[1..]) as int))
    else if |t| > 1 && t[0] == '+' && AllDigits(t[1..]) then Integer(DigitsValue(t[1..]))
    else if t != [] && AllDigits(t) then Integer(DigitsValue(t))
    else NaN
  }

  /** A blank string converts to 0, not to NaN. */
  lemma BlankIsZero(s: string)
    requires AllWhite(s)
    ensures ToNumber(s) == Integer(0)
  {
    TrimOfBlank(s);
  }

  /** The decimal text of an integer converts back to that integer. */
  lemma DecimalRoundTrip(n: int)
    ensures ToNumber(IntToDecimal(n)) == Integer(n)
  {
    TrimOfTrimmed(IntToDecimal(n));
  }

  /** So does the decimal text of an integer followed by whitespace, such as a newline. */
  lemma DecimalLineRoundTrip(n: int, post: string)
    requires AllWhite(post)
    ensures ToNumber(IntToDecimal(n) + post) == Integer(n)
  {
    TrimTrailing(IntToDecimal(n), post);
  }

  /** A decimal integer followed by a separator that is neither a digit nor a sign is the first piece of a split, and reads back as that integer. */
  lemma DecimalBeforeSeparator(n: int, sep: char, rest: string)
    requires !IsDigit(sep) && sep != '-'
    ensures Split(IntToDecimal(n) + [sep] + rest, sep)[0] == IntToDecimal(n)
    ensures ToNumber(IntToDecimal(n)) == Integer(n)
  {
    var d := IntToDecimal(n);
    assert sep !in d by {
      forall i | 0 <= i < |d| ensures d[i] != sep {
        if i > 0 { assert d[i] == d[1..][i - 1]; }
      }
    }
    FirstPieceBeforeSeparator(d, sep, rest);
    DecimalRoundTrip(n);
  }

  /** The largest distance from the epoch, in milliseconds, that a `Date` can hold. */
  const MaxTimeValue: int := 8_640_000_000_000_000

  /** A JavaScript `Date`: milliseconds since the Unix epoch, or an invalid date. */
  datatype Instant = At(ms: int) | InvalidDate

  /** `new Date(v)` for a number `v`: ECMAScript's TimeClip makes NaN and out-of-range values invalid. */
  function DateOf(v: Number): (d: Instant)
    ensures d.At? <==> v.Integer? && -MaxTimeValue <= v.value <= MaxTimeValue
    ensures d.At? ==> d.ms == v.value
  {
    match v
    case NaN => InvalidDate
    case Integer(ms) => if -MaxTimeValue <= ms <= MaxTimeValue then At(ms) else InvalidDate
  }
}
