/**
 The decimal integer text format the coordinator stores its generation
 counter in: Go's `strconv.Itoa` writes it and `strconv.Atoi` reads it back.

 `Atoi` accepts an optional `+` or `-` sign followed by one or more ASCII
 digits and rejects everything else (no spaces, no underscores, no bare sign).
 Integers here are unbounded, so Atoi's out-of-range clamping is not modelled.
 */
module Decimal {

  datatype Option<T> = None | Some(value: T)

  predicate IsDigit(c: char) {
    '0' <= c <= '9'
  }

  predicate IsSign(c: char) {
    c == '+' || c == '-'
  }

  predicate AllDigits(s: string) {
    forall i :: 0 <= i < |s| ==> IsDigit(s[i])
  }

  function DigitValue(c: char): (d: nat)
    requires IsDigit(c)
    ensures d < 10
  {
    c as int - '0' as int
  }

  function DigitChar(d: nat): (c: char)
    requires d < 10
    ensures IsDigit(c) && DigitValue(c) == d
  {
    ('0' as int + d) as char
  }

  /** The value of a run of digits, most significant digit first. */
  function DigitsValue(s: string): nat
    requires AllDigits(s)
  {
    if |s| == 0 then 0 else DigitsValue(s[..|s| - 1]) * 10 + DigitValue(s[|s| - 1])
  }

  /**
   The parse `strconv.Atoi` performs on a base-10 string: None where Go
   reports a syntax error.
   */
  function ParseDecimal(s: string): (r: Option<int>)
    ensures r.Some? <==>
              |s| > 0 && (IsDigit(s[0]) || (IsSign(s[0]) && |s| > 1)) && AllDigits(s[1..])
    ensures |s| > 0 && AllDigits(s) ==> r == Some(DigitsValue(s))
    ensures |s| > 1 && s[0] == '+' && AllDigits(s[1..]) ==> r == Some(DigitsValue(s[1..]))
    ensures |s| > 1 && s[0] == '-' && AllDigits(s[1..]) ==> r == Some(-(DigitsValue(s[1..]) as int))
  {
    if |s| == 0 then None
    else
      var digits := if IsSign(s[0]) then s[1..] else s;
      if |digits| == 0 || !AllDigits(digits) then None
      else if s[0] == '-' then Some(-(DigitsValue(digits) as int))
      else Some(DigitsValue(digits))
  }

  /** The digits of `n` without leading zeros, as `strconv.Itoa` renders a non-negative number. */
  function NatToDigits(n: nat): (s: string)
    ensures |s| > 0 && AllDigits(s)
    ensures DigitsValue(s) == n
    ensures n > 0 ==> s[0] != '0'
    decreases n
  {
    if n < 10 then [DigitChar(n)]
    else
      var prefix := NatToDigits(n / 10);
      var s := prefix + [DigitChar(n % 10)];
      assert s[..|s| - 1] == prefix;
      s
  }

  /**
   `strconv.Itoa`: the canonical decimal text, a `-` for negative numbers
   only, never a `+`, and no leading zeros.
   */
  function Itoa(n: int): (s: string)
    ensures ParseDecimal(s) == Some(n)
    ensures |s| > 0
    ensures n >= 0 ==> AllDigits(s) && (|s| == 1 || s[0] != '0')
    ensures n < 0 ==> |s| > 1 && s[0] == '-' && AllDigits(s[1..]) && s[1] != '0'
  {
    if n < 0 then
      var digits := NatToDigits(-n);
      var s := "-" + digits;
      assert s[1..] == digits;
      s
    else NatToDigits(n)
  }

  /** Distinct numbers are rendered as distinct strings. */
  lemma ItoaInjective(m: int, n: int)
    ensures Itoa(m) == Itoa(n) <==> m == n
  {
  }

  /** A few inputs on either side of the grammar. */
  lemma ParseDecimalExamples()
    ensures ParseDecimal("") == None
    ensures ParseDecimal("+") == None && ParseDecimal("-") == None
    ensures ParseDecimal("abc") == None && ParseDecimal("12a") == None
    ensures ParseDecimal(" 1") == None
    ensures ParseDecimal("-7") == Some(-7)
    ensures ParseDecimal("+007") == Some(7)
  {
    assert !IsDigit('a');
    assert "-7"[1..] == "7";
    assert "+007"[1..] == "007";
    assert "12a"[1..] == "2a" && !IsDigit("2a"[1]);
    assert DigitsValue("007") == 7 by {
      assert "007"[..2] == "00";
      assert "00"[..1] == "0";
      assert "0"[..0] == "";
    }
  }
}
