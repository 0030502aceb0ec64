/** Decimal digit strings: `str(n)` for a natural number, a fixed-width
    zero-padded field, and the value a digit string denotes. */
module Numerals {

  predicate IsDigit(c: char) {
    '0' <= c <= '9'
  }

  predicate IsDigits(s: string) {
    forall i :: 0 <= i < |s| ==> IsDigit(s[i])
  }

  function DigitChar(d: nat): (c: char)
    requires d < 10
    ensures IsDigit(c)
  {
    (d + '0' as int) as char
  }

  function DigitValue(c: char): (d: nat)
    requires IsDigit(c)
    ensures d < 10 && DigitChar(d) == c
  {
    c as int - '0' as int
  }

  function Pow10(k: nat): (r: nat)
    ensures r >= 1
  {
    if k == 0 then 1 else 10 * Pow10(k - 1)
  }

  /** The number a string of decimal digits denotes (the empty string denotes 0). */
  function ValueOf(s: string): nat
    requires IsDigits(s)
  {
    if |s| == 0 then 0 else 10 * ValueOf(s[..|s| - 1]) + DigitValue(s[|s| - 1])
  }

  /** `str(n)`: the shortest decimal numeral of `n`. */
  function Digits(n: nat): (s: string)
    ensures 1 <= |s| && IsDigits(s)
    ensures ValueOf(s) == n
    ensures s[0] == '0' ==> n == 0
    ensures n < 10 <==> |s| == 1
  {
    if n < 10 then [DigitChar(n)]
    else
      var init := Digits(n / 10);
      var s := init + [DigitChar(n % 10)];
      assert s[..|s| - 1] == init;
      s
  }

  /** The numeral of `n` zero-padded on the left to exactly `width` digits. */
  function Padded(n: nat, width: nat): (s: string)
    requires n < Pow10(width)
    ensures |s| == width && IsDigits(s)
    ensures ValueOf(s) == n
  {
    if width == 0 then ""
    else
      var init := Padded(n / 10, width - 1);
      var s := init + [DigitChar(n % 10)];
      assert s[..|s| - 1] == init;
      s
  }

  /** A digit string denotes less than 10^length. */
  lemma {:induction false} ValueOfBound(s: string)
    requires IsDigits(s)
    ensures ValueOf(s) < Pow10(|s|)
  {
    if |s| > 0 {
      ValueOfBound(s[..|s| - 1]);
    }
  }

  /** Padding the value of a digit string to its own length gives the string back. */
  lemma {:induction false} PaddedValueOf(s: string)
    requires IsDigits(s)
    ensures ValueOf(s) < Pow10(|s|)
    ensures Padded(ValueOf(s), |s|) == s
  {
    ValueOfBound(s);
    if |s| > 0 {
      var init := s[..|s| - 1];
      PaddedValueOf(init);
      var n := ValueOf(s);
      assert n / 10 == ValueOf(init) && n % 10 == DigitValue(s[|s| - 1]);
      assert s == init + [s[|s| - 1]];
    }
  }
}
