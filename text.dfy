/** Decimal rendering of integers, as Go's fmt `%d` and strconv.Itoa print them.
    Used by the error messages of errors.go, aes.go and encryption.go. */
module Text {

  predicate IsDigit(c: char) {
    '0' <= c <= '9'
  }

  function DigitChar(d: nat): (c: char)
    requires d < 10
    ensures IsDigit(c) && c as int - '0' as int == d
  {
    ('0' as int + d) as char
  }

  /** The value a string of decimal digits denotes (most significant digit first). */
  function DecimalValue(s: string): nat
    requires forall i :: 0 <= i < |s| ==> IsDigit(s[i])
  {
    if s == [] then 0
    else
      var last := s[|s| - 1];
      assert IsDigit(last);
      10 * DecimalValue(s[..|s| - 1]) + (last as int - '0' as int)
  }

  /** The shortest decimal numeral of n: digits only, no leading zero, and it denotes n. */
  function NatToDecimal(n: nat): (r: string)
    ensures |r| >= 1
    ensures forall i :: 0 <= i < |r| ==> IsDigit(r[i])
    ensures r[0] != '0' || r == "0"
    ensures DecimalValue(r) == n
  {
    if n < 10 then [DigitChar(n)]
    else
      var prefix := NatToDecimal(n / 10);
      var r := prefix + [DigitChar(n % 10)];
      assert r[..|r| - 1] == prefix;
      r
  }

  /** fmt's `%d` of a signed integer: a minus sign before the magnitude when negative. */
  function IntToDecimal(n: int): string
  {
    if n < 0 then "-" + NatToDecimal(-n) else NatToDecimal(n)
  }
}
