/**
 * The JavaScript string conversions the chat relies on: `Number.prototype.toString()`
 * for non-negative integers and for integers, `padStart(2, '0')`, `substring` and
 * `substr` with non-negative arguments, and the shape of `Math.random().toString(36)`.
 */
module Strings {

  predicate IsDigit(c: char) {
    '0' <= c <= '9'
  }

  predicate AllDigits(s: string) {
    forall i :: 0 <= i < |s| ==> IsDigit(s[i])
  }

  /** A digit of base 36 as `Number.prototype.toString(36)` writes it: 0-9 then a-z. */
  predicate IsBase36Digit(c: char) {
    IsDigit(c) || 'a' <= c <= 'z'
  }

  predicate AllBase36(s: string) {
    forall i :: 0 <= i < |s| ==> IsBase36Digit(s[i])
  }

  function DigitChar(d: nat): (c: char)
    requires d < 10
    ensures IsDigit(c) && DigitValue(c) == d
  {
    (('0' as int) + d) as char
  }

  function DigitValue(c: char): (d: nat)
    requires IsDigit(c)
    ensures d < 10
  {
    (c as int) - ('0' as int)
  }

  /** `n.toString()` for a non-negative integer: decimal digits, no leading zero. */
  function NatToDecimal(n: nat): (s: string)
    ensures 1 <= |s| && AllDigits(s)
    ensures 1 < |s| ==> s[0] != '0'
    ensures n < 10 <==> |s| == 1
    decreases n
  {
    if n < 10 then [DigitChar(n)] else NatToDecimal(n / 10) + [DigitChar(n % 10)]
  }

  /** The value of a string of decimal digits (the inverse of NatToDecimal). */
  function DecimalValue(s: string): nat
    requires AllDigits(s)
    decreases |s|
  {
    if s == [] then 0 else DecimalValue(s[..|s| - 1]) * 10 + DigitValue(s[|s| - 1])
  }

  lemma {:induction false} DecimalRoundTrip(n: nat)
    ensures DecimalValue(NatToDecimal(n)) == n
    decreases n
  {
    if n >= 10 {
      var s := NatToDecimal(n);
      assert s[..|s| - 1] == NatToDecimal(n / 10);
      DecimalRoundTrip(n / 10);
    }
  }

  /** `i.toString()` for any integer: a minus sign before the magnitude of a negative one. */
  function IntToDecimal(i: int): (s: string)
  {
    if i < 0 then "-" + NatToDecimal(-i) else NatToDecimal(i)
  }

  /**
   * The text of an integer has no leading zero, is a '-' and the magnitude's digits
   * for a negative one, and reads back as the integer.
   */
  lemma IntToDecimalShape(i: int)
    ensures var s := IntToDecimal(i);
      && (i >= 0 ==> AllDigits(s) && DecimalValue(s) == i && (|s| == 1 || s[0] != '0'))
      && (i < 0 ==> |s| >= 2 && s[0] == '-' && AllDigits(s[1..]) && DecimalValue(s[1..]) == -i
                    && (|s| == 2 || s[1] != '0'))
  {
    if i >= 0 {
      DecimalRoundTrip(i);
    } else {
      DecimalRoundTrip(-i);
      assert IntToDecimal(i)[1..] == NatToDecimal(-i);
    }
  }

  /** `n.toString().padStart(2, '0')`. */
  function Pad2(n: nat): (s: string)
  {
    var d := NatToDecimal(n);
    if |d| < 2 then "0" + d else d
  }

  /** Below 100 the padded form has exactly two digits and reads back as n. */
  lemma Pad2RoundTrip(n: nat)
    requires n < 100
    ensures |Pad2(n)| == 2 && AllDigits(Pad2(n)) && DecimalValue(Pad2(n)) == n
  {
    var s := Pad2(n);
    if n < 10 {
      assert s == ['0', DigitChar(n)];
      assert s[..1] == ['0'];
    } else {
      assert NatToDecimal(n / 10) == [DigitChar(n / 10)];
      assert s == [DigitChar(n / 10), DigitChar(n % 10)];
      assert s[..1] == [DigitChar(n / 10)];
      assert DecimalValue(s) == DecimalValue(s[..1]) * 10 + DigitValue(s[1]);
      assert DecimalValue(s[..1]) == n / 10 by {
        assert s[..1][..0] == [];
      }
    }
  }

  function Min(a: int, b: int): int {
    if a <= b then a else b
  }

  /**
   * `s.substring(start, end)` for non-negative arguments: both ends are clamped to
   * the length and swapped when start is past end.
   */
  function Substring(s: string, start: nat, end: nat): (r: string)
    ensures |r| <= |s|
    ensures |r| <= if start <= end then end - start else start - end
  {
    var a := Min(start, |s|);
    var b := Min(end, |s|);
    if a <= b then s[a..b] else s[b..a]
  }

  /** `s.substr(start, length)` for non-negative arguments. */
  function Substr(s: string, start: nat, length: nat): (r: string)
    ensures |r| <= length
  {
    Substring(s, start, start + length)
  }

  /**
   * The shape of `Math.random().toString(36)` for a value in [0, 1): "0" for zero,
   * otherwise "0." followed by at least one base-36 digit.
   */
  predicate IsRandomBase36(s: string) {
    s == "0" || (|s| >= 3 && s[0] == '0' && s[1] == '.' && AllBase36(s[2..]))
  }

  /** Skipping the "0." of a random base-36 string leaves at most `length` of its digits. */
  lemma RandomSuffix(s: string, length: nat)
    requires IsRandomBase36(s)
    ensures var r := Substr(s, 2, length);
      |r| <= length && AllBase36(r) && (s != "0" ==> r == s[2..Min(2 + length, |s|)])
  {
    var r := Substr(s, 2, length);
    if s != "0" {
      assert r == s[2..Min(2 + length, |s|)];
      forall i | 0 <= i < |r| ensures IsBase36Digit(r[i]) {
        assert r[i] == s[2..][i];
      }
    }
  }
}
