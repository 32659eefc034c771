/**
 * Decimal text of Java ints: `Integer.toString` (also what string
 * concatenation `"key_" + i` uses), `String.format("%d", n)` and
 * `String.format("%02d", n)`, with the parser that reads them back.
 */
module Decimal {
  import opened Wrappers

  predicate IsDigit(c: char) {
    '0' <= c <= '9'
  }

  predicate AllDigits(s: string) {
    forall i :: 0 <= i < |s| ==> IsDigit(s[i])
  }

  function DigitChar(d: nat): (c: char)
    requires d < 10
    ensures IsDigit(c) && c as int - '0' as int == d
  {
    ('0' as int + d) as char
  }

  /** The decimal digits of `n`, most significant first, without leading zeros. */
  function NatToDecimal(n: nat): (s: string)
  {
    if n < 10 then [DigitChar(n)] else NatToDecimal(n / 10) + [DigitChar(n % 10)]
  }

  /** The decimal text is non-empty, all digits, one digit exactly below ten, and has no leading zero. */
  lemma {:induction false} NatToDecimalShape(n: nat)
    ensures AllDigits(NatToDecimal(n))
    ensures 1 <= |NatToDecimal(n)| && (|NatToDecimal(n)| == 1 <==> n < 10)
    ensures NatToDecimal(n)[0] == '0' ==> n == 0
  {
    if n >= 10 {
      NatToDecimalShape(n / 10);
      var s := NatToDecimal(n);
      assert s[0] == NatToDecimal(n / 10)[0];
    }
  }

  /** The value of a string of decimal digits (leading zeros allowed). */
  function DigitsValue(s: string): nat
    requires AllDigits(s)
  {
    if s == [] then 0 else DigitsValue(s[..|s| - 1]) * 10 + (s[|s| - 1] as int - '0' as int)
  }

  /** Reads a Java decimal int back: an optional '-' and at least one digit. */
  function ParseInt(s: string): Option<int> {
    if |s| >= 2 && s[0] == '-' && AllDigits(s[1..]) then Some(-(DigitsValue(s[1..]) as int))
    else if |s| >= 1 && AllDigits(s) then Some(DigitsValue(s))
    else None
  }

  /** `String.format("%d", n)` (and `Integer.toString(n)`). */
  function IntToDecimal(n: int): (s: string)
    ensures 1 <= |s| && (s[0] == '-' <==> n < 0)
    ensures n >= 0 ==> AllDigits(s)
    ensures n < 0 ==> AllDigits(s[1..]) && |s| >= 2
  {
    NatToDecimalShape(if n < 0 then -n else n);
    if n < 0 then "-" + NatToDecimal(-n) else NatToDecimal(n)
  }

  /** `String.format("%02d", n)`: zero-padded to a width of two; "-5" already has that width. */
  function ZeroPad2(n: int): (s: string)
    ensures |s| >= 2
    ensures (n < 0 || n >= 10) ==> s == IntToDecimal(n)
  {
    NatToDecimalShape(if n < 0 then -n else n);
    if 0 <= n < 10 then "0" + NatToDecimal(n) else IntToDecimal(n)
  }

  lemma {:induction false} DecimalRoundTrip(n: nat)
    ensures AllDigits(NatToDecimal(n)) && DigitsValue(NatToDecimal(n)) == n
  {
    NatToDecimalShape(n);
    var s := NatToDecimal(n);
    if n >= 10 {
      var front := NatToDecimal(n / 10);
      assert s[..|s| - 1] == front;
      DecimalRoundTrip(n / 10);
    }
  }

  /** Different numbers have different decimal text. */
  lemma DecimalInjective(i: nat, j: nat)
    ensures NatToDecimal(i) == NatToDecimal(j) <==> i == j
  {
    DecimalRoundTrip(i);
    DecimalRoundTrip(j);
  }

  /** `%d` text parses back to the number it was made from. */
  lemma IntToDecimalRoundTrip(n: int)
    ensures ParseInt(IntToDecimal(n)) == Some(n)
  {
    DecimalRoundTrip(if n < 0 then -n else n);
    NatToDecimalShape(if n < 0 then -n else n);
    if n < 0 {
      assert IntToDecimal(n)[1..] == NatToDecimal(-n);
    }
  }

  /** `%02d` text is at least two characters and still parses back to its number. */
  lemma ZeroPad2RoundTrip(n: int)
    ensures ParseInt(ZeroPad2(n)) == Some(n)
    ensures 0 <= n < 10 ==> ZeroPad2(n) == ['0', DigitChar(n)]
  {
    NatToDecimalShape(if n < 0 then -n else n);
    if 0 <= n < 10 {
      var s := ZeroPad2(n);
      assert s == ['0', DigitChar(n)];
      assert s[..1] == ['0'] && s[..1][..0] == [];
      assert DigitsValue(s[..1]) == 0;
    } else {
      IntToDecimalRoundTrip(n);
    }
  }
}
