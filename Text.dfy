/**
 * Decimal rendering of natural numbers, as JavaScript's `String(n)` and a
 * template literal `${n}` produce it. The scheduler meets it twice: a segment
 * file is named after its index, and a status code is matched as text.
 */
module Text {

  predicate IsDigit(c: char) {
    '0' <= c <= '9'
  }

  function DigitChar(d: nat): (c: char)
    requires d < 10
    ensures IsDigit(c)
  {
    ('0' as int + d) as char
  }

  /** The shortest base-10 numeral of `n`, most significant digit first. */
  function DecimalString(n: nat): (s: string)
    ensures 1 <= |s|
    ensures forall k :: 0 <= k < |s| ==> IsDigit(s[k])
    ensures s[0] != '0' || n == 0
    decreases n
  {
    if n < 10 then [DigitChar(n)] else DecimalString(n / 10) + [DigitChar(n % 10)]
  }

  /** The numeral has three digits exactly when the number lies in 100..999. */
  lemma {:induction false} DecimalLength(n: nat)
    ensures n < 100 ==> |DecimalString(n)| < 3
    ensures 100 <= n < 1000 ==> |DecimalString(n)| == 3
    ensures 1000 <= n ==> |DecimalString(n)| > 3
    decreases n
  {
    if n >= 10 {
      DecimalLength(n / 10);
    }
  }

  /** The leading digit of a three-digit numeral is the hundreds digit. */
  lemma HundredsDigit(n: nat)
    requires 100 <= n < 1000
    ensures DecimalString(n)[0] == DigitChar(n / 100)
  {
    var tens := n / 10;
    assert 10 <= tens < 100;
    assert DecimalString(tens) == DecimalString(tens / 10) + [DigitChar(tens % 10)];
    assert tens / 10 == n / 100;
    assert DecimalString(n) == DecimalString(tens) + [DigitChar(n % 10)];
  }

  /** Different numbers have different numerals. */
  lemma {:induction false} DecimalInjective(a: nat, b: nat)
    requires DecimalString(a) == DecimalString(b)
    ensures a == b
    decreases a
  {
    var sa, sb := DecimalString(a), DecimalString(b);
    if a < 10 && b < 10 {
      assert DigitChar(a) == sa[0] == sb[0] == DigitChar(b);
    } else if a >= 10 && b >= 10 {
      assert sa[..|sa| - 1] == DecimalString(a / 10);
      assert sb[..|sb| - 1] == DecimalString(b / 10);
      assert DigitChar(a % 10) == sa[|sa| - 1] == sb[|sb| - 1] == DigitChar(b % 10);
      DecimalInjective(a / 10, b / 10);
    }
    // One numeral of length 1 and one of length at least 2 cannot be equal.
  }
}
