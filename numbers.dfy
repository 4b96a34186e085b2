/**
 * The java.lang number conversions the query layer relies on: the decimal
 * text of a boxed Integer or Long (string concatenation and toString), and
 * Integer.parseInt / Long.parseLong, which throw NumberFormatException on
 * text that is not a signed decimal numeral in range, and on null.
 */
module Numbers {
  import opened Wrappers

  /** Values of a Java `int` and a Java `long`. */
  type Int32 = n: int | -0x8000_0000 <= n < 0x8000_0000
  type Int64 = n: int | -0x8000_0000_0000_0000 <= n < 0x8000_0000_0000_0000

  predicate IsDigit(c: char)
  {
    '0' <= c <= '9'
  }

  predicate AllDigits(s: string)
  {
    forall i :: 0 <= i < |s| ==> IsDigit(s[i])
  }

  function DigitChar(d: nat): (c: char)
    requires d < 10
    ensures IsDigit(c)
  {
    ('0' as int + d) as char
  }

  function DigitValue(c: char): (d: nat)
    requires IsDigit(c)
    ensures d < 10 && DigitChar(d) == c
  {
    c as int - '0' as int
  }

  /** The decimal digits of `n`, most significant first, without leading zeros. */
  function Digits(n: nat): (s: string)
    ensures s != [] && AllDigits(s)
    ensures |s| > 1 ==> s[0] != '0'
  {
    if n < 10 then [DigitChar(n)] else Digits(n / 10) + [DigitChar(n % 10)]
  }

  /** The text of a boxed number: a minus sign exactly for negative values, then its digits. */
  function Decimal(n: int): (s: string)
    ensures s != []
    ensures s[0] == '-' <==> n < 0
    ensures n >= 0 ==> AllDigits(s)
  {
    if n < 0 then "-" + Digits(-n) else Digits(n)
  }

  /** The number a string of decimal digits denotes, read left to right. */
  function DigitsValue(s: string): nat
    requires AllDigits(s)
  {
    if s == [] then 0 else DigitsValue(s[..|s| - 1]) * 10 + DigitValue(s[|s| - 1])
  }

  /**
   * The value of an optionally signed decimal numeral ('-' or '+' followed
   * by at least one digit, or digits alone); None for anything else.
   * No range check yet.
   */
  function ParseDecimal(s: string): (r: Option<int>)
    ensures r.Some? ==> s != [] && (r.value < 0 ==> s[0] == '-')
    ensures s != [] && AllDigits(s) ==> r == Some(DigitsValue(s))
    ensures s == [] || s == "-" || s == "+" ==> r == None
    ensures r.Some? <==> (s != [] && AllDigits(s))
                         || (|s| > 1 && (s[0] == '-' || s[0] == '+') && AllDigits(s[1..]))
    ensures |s| > 1 && s[0] == '-' && AllDigits(s[1..]) ==> r == Some(0 - DigitsValue(s[1..]))
    ensures |s| > 1 && s[0] == '+' && AllDigits(s[1..]) ==> r == Some(DigitsValue(s[1..]))
  {
    if s == [] then None
    else if s[0] == '-' || s[0] == '+' then
      if |s| > 1 && AllDigits(s[1..]) then
        var magnitude: int := DigitsValue(s[1..]);
        Some(if s[0] == '-' then -magnitude else magnitude)
      else None
    else if AllDigits(s) then Some(DigitsValue(s))
    else None
  }

  /** Integer.parseInt: None stands for the NumberFormatException (malformed, out of range or null). */
  function ParseInt(s: Option<string>): (r: Option<Int32>)
    ensures s == None ==> r == None
    ensures r.Some? <==> s.Some? && ParseDecimal(s.value).Some?
                         && -0x8000_0000 <= ParseDecimal(s.value).value < 0x8000_0000
    ensures r.Some? ==> r.value == ParseDecimal(s.value).value
  {
    match s
    case None => None
    case Some(text) =>
      match ParseDecimal(text)
      case Some(n) => if -0x8000_0000 <= n < 0x8000_0000 then Some(n) else None
      case None => None
  }

  /** Long.parseLong: None stands for the NumberFormatException (malformed, out of range or null). */
  function ParseLong(s: Option<string>): (r: Option<Int64>)
    ensures s == None ==> r == None
    ensures r.Some? <==> s.Some? && ParseDecimal(s.value).Some?
                         && -0x8000_0000_0000_0000 <= ParseDecimal(s.value).value < 0x8000_0000_0000_0000
    ensures r.Some? ==> r.value == ParseDecimal(s.value).value
  {
    match s
    case None => None
    case Some(text) =>
      match ParseDecimal(text)
      case Some(n) =>
        if -0x8000_0000_0000_0000 <= n < 0x8000_0000_0000_0000 then Some(n) else None
      case None => None
  }

  /** Reading back the digits of `n` gives `n`. */
  lemma {:induction false} DigitsRoundTrip(n: nat)
    ensures DigitsValue(Digits(n)) == n
  {
    if n >= 10 {
      var d := Digits(n / 10);
      var s := d + [DigitChar(n % 10)];
      assert s[..|s| - 1] == d;
      DigitsRoundTrip(n / 10);
    }
  }

  /** Parsing the text of a boxed number gives the number back. */
  lemma DecimalRoundTrip(n: int)
    ensures ParseDecimal(Decimal(n)) == Some(n)
  {
    if n < 0 {
      var s := Decimal(n);
      assert s[1..] == Digits(-n);
      DigitsRoundTrip(-n);
    } else {
      DigitsRoundTrip(n);
    }
  }

  /** Integer.parseInt inverts Integer.toString on every int. */
  lemma ParseIntOfDecimal(n: Int32)
    ensures ParseInt(Some(Decimal(n))) == Some(n)
  {
    DecimalRoundTrip(n);
  }

  /** Long.parseLong inverts Long.toString on every long. */
  lemma ParseLongOfDecimal(n: Int64)
    ensures ParseLong(Some(Decimal(n))) == Some(n)
  {
    DecimalRoundTrip(n);
  }
}
