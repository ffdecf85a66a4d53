/**
  Decimal rendering of integers, as Go's `fmt.Sprintf("%d", n)` writes them
  (an optional minus sign, then the digits with no leading zero), together
  with the strict reading that undoes it.
 */
module Decimal {
  import opened Wrappers

  predicate IsDigit(c: char) {
    '0' <= c <= '9'
  }

  function DigitValue(c: char): (d: nat)
    requires IsDigit(c)
    ensures d < 10
  {
    c as int - '0' as int
  }

  function DigitChar(d: nat): (c: char)
    requires d < 10
    ensures IsDigit(c) && DigitValue(c) == d
  {
    ('0' as int + d) as char
  }

  predicate AllDigits(s: string) {
    forall i :: 0 <= i < |s| ==> IsDigit(s[i])
  }

  /** The number a string of decimal digits denotes, most significant digit first. */
  function ValueOf(s: string): nat
    requires AllDigits(s)
  {
    if s == [] then 0 else 10 * ValueOf(s[..|s| - 1]) + DigitValue(s[|s| - 1])
  }

  /** The shape `%d` gives a natural number: at least one digit, no leading zero. */
  predicate IsCanonical(s: string) {
    |s| > 0 && AllDigits(s) && (s[0] == '0' ==> |s| == 1)
  }

  /** `%d` applied to a natural number. */
  function NatToDecimal(n: nat): (s: string)
    ensures IsCanonical(s) && ValueOf(s) == n
  {
    if n < 10 then [DigitChar(n)]
    else
      var t := NatToDecimal(n / 10);
      var s := t + [DigitChar(n % 10)];
      assert s[..|s| - 1] == t;
      s
  }

  /** `%d` applied to any integer: a minus sign before the magnitude when negative. */
  function IntToDecimal(n: int): (s: string)
    ensures ParseInt(s) == Some(n)
  {
    if n < 0 then
      var t := NatToDecimal(-n);
      assert ("-" + t)[1..] == t;
      "-" + t
    else NatToDecimal(n)
  }

  /** Reads back exactly the strings that `%d` can produce, and nothing else. */
  function ParseInt(s: string): (r: Option<int>)
  {
    if |s| > 0 && s[0] == '-' then
      if IsCanonical(s[1..]) && s[1..] != "0" then Some(-(ValueOf(s[1..]) as int)) else None
    else if IsCanonical(s) then Some(ValueOf(s))
    else None
  }

  /** A digit string whose first digit is not zero denotes a positive number. */
  lemma {:induction false} LeadingNonZeroIsPositive(s: string)
    requires |s| > 0 && AllDigits(s) && s[0] != '0'
    ensures ValueOf(s) > 0
  {
    if |s| > 1 {
      var t := s[..|s| - 1];
      assert t[0] == s[0];
      LeadingNonZeroIsPositive(t);
    }
  }

  /** A canonical digit string is the rendering of its own value. */
  lemma {:induction false} CanonicalIsRendering(s: string)
    requires IsCanonical(s)
    ensures NatToDecimal(ValueOf(s)) == s
  {
    var last := s[|s| - 1];
    if |s| == 1 {
      assert s[..0] == [];
      assert NatToDecimal(ValueOf(s)) == [DigitChar(DigitValue(last))];
    } else {
      var t := s[..|s| - 1];
      assert t[0] == s[0];
      LeadingNonZeroIsPositive(t);
      CanonicalIsRendering(t);
      var n := ValueOf(s);
      assert n == 10 * ValueOf(t) + DigitValue(last);
      assert n / 10 == ValueOf(t) && n % 10 == DigitValue(last);
      assert s == t + [last];
    }
  }

  /** The reading is exact: a string reads as `n` only if it is the rendering of `n`. */
  lemma ParseIntExact(s: string, n: int)
    requires ParseInt(s) == Some(n)
    ensures s == IntToDecimal(n)
  {
    if |s| > 0 && s[0] == '-' {
      var t := s[1..];
      CanonicalIsRendering(t);
      LeadingNonZeroIsPositive(t);
      assert s == "-" + t;
    } else {
      CanonicalIsRendering(s);
    }
  }

  /** The most significant decimal digit of a natural number. */
  function LeadingDigit(n: nat): (d: nat)
    ensures d < 10
  {
    if n < 10 then n else LeadingDigit(n / 10)
  }

  /** The rendering of `n` starts with the character of its leading digit. */
  lemma {:induction false} RenderingStartsWithLeadingDigit(n: nat)
    ensures NatToDecimal(n)[0] == DigitChar(LeadingDigit(n))
  {
    if n >= 10 {
      RenderingStartsWithLeadingDigit(n / 10);
    }
  }

  /** For a three-digit number the leading digit is its hundreds digit. */
  lemma ThreeDigitLeadingDigit(n: nat)
    requires 100 <= n <= 999
    ensures LeadingDigit(n) == n / 100
  {
    assert LeadingDigit(n) == LeadingDigit(n / 10);
    assert n / 10 / 10 == n / 100;
  }
}
