/**
 * `Number.prototype.toFixed(2)` over exact reals: the text of the nearest
 * multiple of 0.01 (ties go to the larger magnitude), with a leading minus
 * sign whenever the number is negative.
 */
module Fixed {

  predicate IsDigit(ch: char) {
    '0' <= ch <= '9'
  }

  predicate AllDigits(s: string) {
    forall i :: 0 <= i < |s| ==> IsDigit(s[i])
  }

  function DigitChar(d: nat): (ch: char)
    requires d < 10
    ensures IsDigit(ch) && ch as int - '0' as int == d
  {
    ('0' as int + d) as char
  }

  /** Decimal digits of n without leading zeros ("0" for zero). */
  function Digits(n: nat): (s: string)
    ensures 1 <= |s| && AllDigits(s)
    decreases n
  {
    if n < 10 then [DigitChar(n)] else Digits(n / 10) + [DigitChar(n % 10)]
  }

  /** The number a string of decimal digits denotes. */
  function DigitsValue(s: string): (n: nat)
    requires AllDigits(s)
  {
    if s == [] then 0
    else DigitsValue(s[..|s| - 1]) * 10 + (s[|s| - 1] as int - '0' as int)
  }

  lemma {:induction false} DigitsRoundTrip(n: nat)
    ensures DigitsValue(Digits(n)) == n
    decreases n
  {
    var s := Digits(n);
    if n < 10 {
      assert s[..|s| - 1] == [];
    } else {
      assert s[..|s| - 1] == Digits(n / 10);
      DigitsRoundTrip(n / 10);
    }
  }

  /** The number of hundredths toFixed(2) shows for x: the nearest one, ties up. */
  function Hundredths(x: real): (n: nat)
    ensures (n as real) - 0.5 <= 100.0 * Abs(x) < (n as real) + 0.5
  {
    (100.0 * Abs(x) + 0.5).Floor
  }

  function Abs(x: real): (a: real) {
    if x < 0.0 then -x else x
  }

  /** The text toFixed(2) produces for x. */
  function ToFixed2(x: real): (s: string) {
    var n := Hundredths(x);
    (if x < 0.0 then "-" else "") + Digits(n / 100) + "." + [DigitChar(n % 100 / 10), DigitChar(n % 10)]
  }

  /** Where the digits of the integer part begin in ToFixed2(x). */
  function DigitsStart(x: real): (i: nat) {
    if x < 0.0 then 1 else 0
  }

  /**
   * The text ToFixed2(x) reads back as the rounded value: a minus sign exactly
   * when x is negative, then digits, a point and two more digits that together
   * spell Hundredths(x).
   */
  lemma ToFixed2Denotes(x: real)
    ensures var r := ToFixed2(x);
      |r| >= 4 && DigitsStart(x) < |r| - 3 &&
      (r[0] == '-' <==> x < 0.0) &&
      r[|r| - 3] == '.' &&
      AllDigits(r[DigitsStart(x)..|r| - 3]) && AllDigits(r[|r| - 2..]) &&
      DigitsValue(r[DigitsStart(x)..|r| - 3]) * 100 + DigitsValue(r[|r| - 2..]) == Hundredths(x)
  {
    var n := Hundredths(x);
    var sign := if x < 0.0 then "-" else "";
    var whole := Digits(n / 100);
    var frac := [DigitChar(n % 100 / 10), DigitChar(n % 10)];
    var r := ToFixed2(x);
    assert r == sign + whole + "." + frac;
    assert r[DigitsStart(x)..|r| - 3] == whole;
    assert r[|r| - 2..] == frac;
    DigitsRoundTrip(n / 100);
    assert frac[..1] == [frac[0]];
    assert [frac[0]][..0] == [];
    assert DigitsValue([frac[0]]) == n % 100 / 10;
    assert DigitsValue(frac) == (n % 100 / 10) * 10 + n % 10;
    if x >= 0.0 {
      assert r[0] == whole[0];
    }
  }
}
