/**
 * Decimal text for the numbers the system writes into strings: zero-padded
 * calendar fields (`%Y`, `%m`, `%d`, `%H`, `%M`, `%S`) and the servo angle in
 * a device URL.  Each rendering has its parser, and the two round-trip.
 */
module Decimal {
  import opened Wrappers

  predicate IsDigit(c: char) {
    '0' <= c <= '9'
  }

  function Digit(n: nat): (c: char)
    requires n < 10
    ensures IsDigit(c)
  {
    (('0' as int) + n) as char
  }

  function DigitValue(c: char): (n: nat)
    requires IsDigit(c)
    ensures n < 10
  {
    (c as int) - ('0' as int)
  }

  lemma DigitRoundTrip(n: nat)
    requires n < 10
    ensures DigitValue(Digit(n)) == n
  {
  }

  predicate AllDigits(s: string) {
    forall i :: 0 <= i < |s| ==> IsDigit(s[i])
  }

  /** Two digits, zero-padded: the `%m`, `%d`, `%H`, `%M`, `%S` conversions. */
  function Pad2(n: nat): (s: string)
    requires n < 100
    ensures |s| == 2 && AllDigits(s)
  {
    [Digit(n / 10), Digit(n % 10)]
  }

  /** Four digits, zero-padded: the `%Y` conversion. */
  function Pad4(n: nat): (s: string)
    requires n < 10000
    ensures |s| == 4 && AllDigits(s)
  {
    Pad2(n / 100) + Pad2(n % 100)
  }

  /** The value of a string of decimal digits, most significant first. */
  function DigitsValue(s: string): (n: nat)
    requires AllDigits(s)
  {
    if |s| == 0 then 0 else DigitsValue(s[..|s| - 1]) * 10 + DigitValue(s[|s| - 1])
  }

  lemma DigitsValueSnoc(s: string, c: char)
    requires AllDigits(s) && IsDigit(c)
    ensures AllDigits(s + [c]) && DigitsValue(s + [c]) == DigitsValue(s) * 10 + DigitValue(c)
  {
    assert (s + [c])[..|s|] == s;
  }

  /** The value of two digits and of four digits, spelled out. */
  lemma DigitsValue2(a: char, b: char)
    requires IsDigit(a) && IsDigit(b)
    ensures DigitsValue([a, b]) == DigitValue(a) * 10 + DigitValue(b)
  {
    DigitsValueSnoc([], a);
    assert [] + [a] == [a];
    DigitsValueSnoc([a], b);
    assert [a] + [b] == [a, b];
  }

  lemma DigitsValue4(a: char, b: char, c: char, d: char)
    requires IsDigit(a) && IsDigit(b) && IsDigit(c) && IsDigit(d)
    ensures DigitsValue([a, b, c, d])
         == DigitValue(a) * 1000 + DigitValue(b) * 100 + DigitValue(c) * 10 + DigitValue(d)
  {
    DigitsValue2(a, b);
    DigitsValueSnoc([a, b], c);
    assert [a, b] + [c] == [a, b, c];
    DigitsValueSnoc([a, b, c], d);
    assert [a, b, c] + [d] == [a, b, c, d];
  }

  lemma Pad2RoundTrip(n: nat)
    requires n < 100
    ensures DigitsValue(Pad2(n)) == n
  {
    DigitsValue2(Digit(n / 10), Digit(n % 10));
  }

  lemma Pad4RoundTrip(n: nat)
    requires n < 10000
    ensures DigitsValue(Pad4(n)) == n
  {
    var hi, lo := Pad2(n / 100), Pad2(n % 100);
    assert Pad4(n) == [hi[0], hi[1], lo[0], lo[1]];
    DigitsValue4(hi[0], hi[1], lo[0], lo[1]);
    assert hi == [hi[0], hi[1]] && lo == [lo[0], lo[1]];
    DigitsValue2(hi[0], hi[1]);
    DigitsValue2(lo[0], lo[1]);
    Pad2RoundTrip(n / 100);
    Pad2RoundTrip(n % 100);
  }

  /** A two-character digit string is the padded rendering of its value. */
  lemma Pad2OfValue(s: string)
    requires |s| == 2 && AllDigits(s)
    ensures DigitsValue(s) < 100 && Pad2(DigitsValue(s)) == s
  {
    assert s == [s[0], s[1]];
    DigitsValue2(s[0], s[1]);
  }

  /** A four-character digit string is the padded rendering of its value. */
  lemma Pad4OfValue(s: string)
    requires |s| == 4 && AllDigits(s)
    ensures DigitsValue(s) < 10000 && Pad4(DigitsValue(s)) == s
  {
    assert s == [s[0], s[1], s[2], s[3]];
    DigitsValue4(s[0], s[1], s[2], s[3]);
    var hi, lo := [s[0], s[1]], [s[2], s[3]];
    DigitsValue2(s[0], s[1]);
    DigitsValue2(s[2], s[3]);
    Pad2OfValue(hi);
    Pad2OfValue(lo);
    var v := DigitsValue(s);
    assert v == DigitsValue(hi) * 100 + DigitsValue(lo);
    assert v / 100 == DigitsValue(hi) && v % 100 == DigitsValue(lo);
    assert s == hi + lo;
  }

  /** Python's `str(n)` for a natural number: no sign, no leading zeros. */
  function NatToString(n: nat): (s: string)
    ensures |s| > 0 && AllDigits(s)
    ensures |s| > 1 ==> s[0] != '0'
  {
    if n < 10 then [Digit(n)] else NatToString(n / 10) + [Digit(n % 10)]
  }

  /** Reading a string of digits as a number; `None` for the empty string or a non-digit. */
  function ParseNat(s: string): Option<nat> {
    if |s| > 0 && AllDigits(s) then Some(DigitsValue(s)) else None
  }

  lemma {:induction false} NatToStringRoundTrip(n: nat)
    ensures ParseNat(NatToString(n)) == Some(n)
  {
    if n >= 10 {
      NatToStringRoundTrip(n / 10);
      DigitsValueSnoc(NatToString(n / 10), Digit(n % 10));
      DigitRoundTrip(n % 10);
    } else {
      DigitsValueSnoc([], Digit(n));
      assert [] + [Digit(n)] == [Digit(n)];
      DigitRoundTrip(n);
    }
  }
}
