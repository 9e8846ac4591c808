/** The two ways the pages turn text into numbers: `Number(s)` and
    `parseFloat(s)`, on decimal text. A result of None stands for NaN.
    ToNumber rejects exponents, "Infinity" and hexadecimal, octal or binary
    literals as NaN. ParseFloat stops at an exponent and reads only the
    digits before it, and reads "Infinity" as NaN; a hexadecimal, octal or
    binary prefix reads as 0, as in JavaScript. */
module Numbers {
  import opened Wrappers
  import opened Text
  import opened Calendar

  function DigitValue(c: char): nat
    requires IsDigit(c)
  {
    c as int - '0' as int
  }

  /** The value of a string of decimal digits ("" is 0). */
  function IntValue(ds: string): (v: real)
    requires AllDigits(ds)
    ensures v >= 0.0
  {
    if ds == [] then 0.0
    else IntValue(ds[..|ds| - 1]) * 10.0 + DigitValue(ds[|ds| - 1]) as real
  }

  /** The value of the digits after a decimal point. */
  function FracValue(ds: string): (v: real)
    requires AllDigits(ds)
    ensures 0.0 <= v < 1.0
  {
    if ds == [] then 0.0
    else (DigitValue(ds[0]) as real + FracValue(ds[1..])) / 10.0
  }

  /** An unsigned decimal literal: digits, optionally a point and digits, with
      at least one digit in all. */
  function UnsignedDecimal(s: string): (r: Option<real>)
    ensures r.Some? ==> r.value >= 0.0
  {
    var parts := Split(s, '.');
    if |parts| == 1 && s != [] && AllDigits(s) then Some(IntValue(s))
    else if |parts| == 2 && AllDigits(parts[0]) && AllDigits(parts[1])
            && (parts[0] != [] || parts[1] != []) then
      Some(IntValue(parts[0]) + FracValue(parts[1]))
    else None
  }

  /** JavaScript's Number(s) on a string: surrounding whitespace is ignored,
      blank text is 0, then an optional sign and an unsigned decimal. */
  function ToNumber(s: string): Option<real> {
    var t := Trim(s);
    if t == [] then Some(0.0)
    else if t[0] == '-' then
      match UnsignedDecimal(t[1..])
      case Some(v) => Some(-v)
      case None => None
    else if t[0] == '+' then UnsignedDecimal(t[1..])
    else UnsignedDecimal(t)
  }

  /** The longest prefix of s made of digits. */
  function LeadingDigits(s: string): (d: string)
    ensures AllDigits(d) && StartsWith(s, d)
    ensures d == s || !IsDigit(s[|d|])
  {
    if s != [] && IsDigit(s[0]) then [s[0]] + LeadingDigits(s[1..]) else []
  }

  /** JavaScript's parseFloat(s): leading whitespace is skipped and the
      longest decimal prefix is read; no digits at all gives NaN. */
  function ParseFloat(s: string): Option<real> {
    var t := TrimStart(s);
    var negative := t != [] && t[0] == '-';
    var u := if t != [] && (t[0] == '-' || t[0] == '+') then t[1..] else t;
    var whole := LeadingDigits(u);
    var rest := u[|whole|..];
    var fraction := if rest != [] && rest[0] == '.' then LeadingDigits(rest[1..]) else [];
    if whole == [] && fraction == [] then None
    else
      var v := IntValue(whole) + FracValue(fraction);
      Some(if negative then -v else v)
  }

  /** The decimal digits `String(n)` writes for a natural number read back as
      that number. */
  lemma {:induction false} DigitsValue(n: nat)
    ensures IntValue(Digits(n)) == n as real
    decreases n
  {
    var ds := Digits(n);
    if n >= 10 {
      DigitsValue(n / 10);
      assert ds[..|ds| - 1] == Digits(n / 10);
      assert n == (n / 10) * 10 + n % 10;
    }
  }

  /** `Number(String(n))` is n: the decimal text a count is written as reads
      back through `Number` as that count. */
  lemma NumberOfDigits(n: nat)
    ensures ToNumber(Digits(n)) == Some(n as real)
  {
    var ds := Digits(n);
    assert TrimStart(ds) == ds;
    assert TrimEnd(ds) == ds;
    assert '.' !in ds;
    SplitWithoutSep(ds, '.');
    DigitsValue(n);
  }

  /** A digit string with a non-zero digit is positive. */
  lemma {:induction false} IntValuePositive(ds: string, k: nat)
    requires AllDigits(ds) && k < |ds| && ds[k] != '0'
    ensures IntValue(ds) > 0.0
  {
    if k < |ds| - 1 {
      IntValuePositive(ds[..|ds| - 1], k);
    }
  }

  /** parseFloat reads a positive number from text that starts with digits
      of which one is not zero: the "received quantity" a user types. */
  lemma ParseFloatOfDigits(ds: string, k: nat)
    requires AllDigits(ds) && k < |ds| && ds[k] != '0'
    ensures ParseFloat(ds).Some? && ParseFloat(ds).value > 0.0
  {
    assert TrimStart(ds) == ds;
    assert LeadingDigits(ds) == ds by { LeadingDigitsOfDigits(ds); }
    IntValuePositive(ds, k);
  }

  lemma {:induction false} LeadingDigitsOfDigits(ds: string)
    requires AllDigits(ds)
    ensures LeadingDigits(ds) == ds
  {
    if ds != [] {
      LeadingDigitsOfDigits(ds[1..]);
      assert [ds[0]] + ds[1..] == ds;
    }
  }
}
