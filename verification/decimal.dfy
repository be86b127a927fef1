/** Decimal rendering of non-negative integers, as JavaScript's number to
    string conversion produces it, the two-digit zero padding of the digital
    readout, and reading a digit string back. */
module Decimal {

  predicate IsDigit(c: char) {
    '0' <= c <= '9'
  }

  predicate AllDigits(s: string) {
    forall i :: 0 <= i < |s| ==> IsDigit(s[i])
  }

  function DigitValue(c: char): (d: nat)
    requires IsDigit(c)
    ensures d < 10
  {
    c as int - '0' as int
  }

  function DigitChar(d: nat): (c: char)
    requires d < 10
    ensures IsDigit(c) && DigitValue(c) == d
  {
    ('0' as int + d) as char
  }

  /** Shortest decimal rendering: no leading zero, one digit below ten. */
  function ToDecimal(n: nat): (r: string)
    ensures AllDigits(r)
    ensures |r| >= 1
    ensures n < 10 <==> |r| == 1
    ensures n < 100 ==> |r| <= 2
    ensures n > 0 ==> r[0] != '0'
    decreases n
  {
    if n < 10 then [DigitChar(n)] else ToDecimal(n / 10) + [DigitChar(n % 10)]
  }

  /** Reads a digit string as a number, most significant digit first. */
  function ParseDecimal(s: string): nat
    requires AllDigits(s)
  {
    if |s| == 0 then 0 else 10 * ParseDecimal(s[..|s| - 1]) + DigitValue(s[|s| - 1])
  }

  lemma {:induction false} DecimalRoundTrip(n: nat)
    ensures ParseDecimal(ToDecimal(n)) == n
    decreases n
  {
    if n >= 10 {
      var s := ToDecimal(n);
      assert s[..|s| - 1] == ToDecimal(n / 10);
      DecimalRoundTrip(n / 10);
    }
  }

  /** A leading zero does not change the value read back. */
  lemma {:induction false} LeadingZeroIgnored(s: string)
    requires AllDigits(s)
    ensures AllDigits("0" + s)
    ensures ParseDecimal("0" + s) == ParseDecimal(s)
    decreases |s|
  {
    if |s| > 0 {
      var z := "0" + s;
      assert z[..|z| - 1] == "0" + s[..|s| - 1];
      LeadingZeroIgnored(s[..|s| - 1]);
    }
  }

  /** The readout's padding: `(x < 10) ? "0" + x : x`. Every value below 100
      becomes exactly two digits, the first of which is '0' exactly when the
      value is below ten, and reads back as the value. */
  function PadTwo(n: nat): (r: string)
    ensures AllDigits(r)
    ensures ParseDecimal(r) == n
    ensures n < 100 ==> |r| == 2
    ensures |r| >= 2
    ensures r[0] == '0' <==> n < 10
  {
    DecimalRoundTrip(n);
    if n < 10 then
      LeadingZeroIgnored(ToDecimal(n));
      "0" + ToDecimal(n)
    else ToDecimal(n)
  }

  /** Padding loses nothing: two values with the same rendering are equal. */
  lemma PadTwoInjective(a: nat, b: nat)
    requires PadTwo(a) == PadTwo(b)
    ensures a == b
  {
  }
}
