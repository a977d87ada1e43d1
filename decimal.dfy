/** Decimal text of the 16-bit ids: `u16::to_string` and `str::parse::<u16>`. */
module Decimal {
  import opened Base

  const U16_MAX: nat := 0xFFFF

  predicate IsDigit(c: char)
  {
    '0' <= c <= '9'
  }

  function DigitChar(d: nat): (c: char)
    requires d < 10
    ensures IsDigit(c)
  {
    (48 + d) as char
  }

  function DigitValue(c: char): (d: nat)
    requires IsDigit(c)
    ensures d < 10 && DigitChar(d) == c
  {
    c as int - 48
  }

  /** `n.to_string()`: the decimal digits of `n`, with no sign and no
      leading zero. */
  function ToDecimal(n: nat): (s: string)
    ensures |s| >= 1
    ensures forall i :: 0 <= i < |s| ==> IsDigit(s[i])
  {
    if n < 10 then [DigitChar(n)] else ToDecimal(n / 10) + [DigitChar(n % 10)]
  }

  /** The kinds of `ParseIntError` that `str::parse::<u16>` can return. */
  datatype ParseError = Empty | InvalidDigit | PosOverflow

  /** `s.parse::<u16>()`: an optional leading `+`, then decimal digits
      (leading zeros allowed). The empty string is `Empty`, a lone sign or
      any non-digit is `InvalidDigit`, a value above 65535 is
      `PosOverflow`; digits are read left to right and the first of these
      faults met ends the parse. */
  function ParseU16(s: string): (r: Result<u16, ParseError>)
    ensures s == [] ==> r == Err(Empty)
    ensures r.Ok? ==> |s| >= 1
  {
    if |s| == 0 then Err(Empty)
    else if s[0] == '+' && |s| == 1 then Err(InvalidDigit)
    else if s[0] == '+' then Accumulate(0, s[1..])
    else Accumulate(0, s)
  }

  /** The digit loop of the parse, carrying the value read so far. */
  function Accumulate(acc: u16, digits: string): Result<u16, ParseError>
    decreases |digits|
  {
    if |digits| == 0 then Ok(acc)
    else if !IsDigit(digits[0]) then Err(InvalidDigit)
    else
      var next := acc * 10 + DigitValue(digits[0]);
      if next > U16_MAX then Err(PosOverflow) else Accumulate(next, digits[1..])
  }

  /** Reading one more digit after a successful parse of `digits` is one
      more step of the loop. */
  lemma {:induction false} AccumulateSnoc(acc: u16, digits: string, c: char, v: u16)
    requires Accumulate(acc, digits) == Ok(v)
    requires IsDigit(c) && v * 10 + DigitValue(c) <= U16_MAX
    ensures Accumulate(acc, digits + [c]) == Ok(v * 10 + DigitValue(c))
    decreases |digits|
  {
    if |digits| == 0 {
      assert digits + [c] == [c];
    } else {
      var next := acc * 10 + DigitValue(digits[0]);
      assert (digits + [c])[1..] == digits[1..] + [c];
      AccumulateSnoc(next, digits[1..], c, v);
    }
  }

  lemma {:induction false} AccumulateDecimal(n: nat)
    requires n <= U16_MAX
    ensures Accumulate(0, ToDecimal(n)) == Ok(n)
  {
    if n >= 10 {
      AccumulateDecimal(n / 10);
      AccumulateSnoc(0, ToDecimal(n / 10), DigitChar(n % 10), n / 10);
    }
  }

  /** Every id printed with `to_string` parses back to itself. */
  lemma ParseToDecimal(n: u16)
    ensures ParseU16(ToDecimal(n)) == Ok(n)
  {
    AccumulateDecimal(n);
  }

  /** Distinct ids print as distinct strings. */
  lemma ToDecimalInjective(m: u16, n: u16)
    requires ToDecimal(m) == ToDecimal(n)
    ensures m == n
  {
    ParseToDecimal(m);
    ParseToDecimal(n);
  }
}
