// Decimal text of whole numbers, as Python's str(int) and the zero-padded
// numeric fields of strftime print them, together with the reading back
// that shows the text loses nothing.
module Decimal {

  predicate IsDigit(c: char) {
    '0' <= c <= '9'
  }

  function Digit(d: nat): (c: char)
    requires d < 10
    ensures IsDigit(c)
  {
    ('0' as int + d) as char
  }

  function DigitValue(c: char): nat {
    if IsDigit(c) then (c as int - '0' as int) as nat else 0
  }

  function Pow10(k: nat): (p: nat)
    ensures p >= 1
  {
    if k == 0 then 1 else 10 * Pow10(k - 1)
  }

  /** The decimal digits of n, padded on the left with zeros to at least
      `width` characters (printf's %0<width>d); width 0 or 1 gives the plain
      decimal text. */
  function ZeroPad(n: nat, width: nat): (s: string)
    ensures |s| >= 1 && |s| >= width
    ensures forall i :: 0 <= i < |s| ==> IsDigit(s[i])
    decreases n + width
  {
    if n < 10 && width <= 1 then [Digit(n)]
    else ZeroPad(n / 10, if width == 0 then 0 else width - 1) + [Digit(n % 10)]
  }

  /** The value of a string of decimal digits. */
  function DigitsValue(s: string): nat {
    if s == [] then 0 else 10 * DigitsValue(s[..|s| - 1]) + DigitValue(s[|s| - 1])
  }

  /** Python's str(i) for an int: a minus sign for negatives, then the
      digits, with no leading zero except in "0" itself. */
  function IntToString(i: int): (s: string)
    ensures |s| >= 1
    ensures s[0] == '-' <==> i < 0
    ensures forall k :: (if i < 0 then 1 else 0) <= k < |s| ==> IsDigit(s[k])
    ensures i >= 0 ==> |s| == 1 || s[0] != '0'
    ensures i < 0 ==> |s| >= 2 && s[1] != '0'
  {
    if i < 0 then
      ZeroPadNoLeadingZero(-i, 1);
      "-" + ZeroPad(-i, 1)
    else if i == 0 then ZeroPad(0, 1)
    else
      ZeroPadNoLeadingZero(i, 1);
      ZeroPad(i, 1)
  }

  /** Without padding, a positive number's text does not start with 0. */
  lemma {:induction false} ZeroPadNoLeadingZero(n: nat, width: nat)
    requires n >= 1 && width <= 1
    ensures ZeroPad(n, width)[0] != '0'
    decreases n
  {
    if !(n < 10 && width <= 1) {
      ZeroPadNoLeadingZero(n / 10, 0);
    }
  }

  function ParseInt(s: string): int {
    if s != [] && s[0] == '-' then -(DigitsValue(s[1..]) as int) else DigitsValue(s)
  }

  /** A number below 10^width pads to exactly `width` characters. */
  lemma {:induction false} ZeroPadLength(n: nat, width: nat)
    requires 1 <= width && n < Pow10(width)
    ensures |ZeroPad(n, width)| == width
  {
    if !(n < 10 && width <= 1) {
      ZeroPadLength(n / 10, width - 1);
    }
  }

  /** Dropping the last character of a padded field drops the last digit. */
  lemma ZeroPadDropDigit(n: nat, width: nat)
    requires 2 <= width && n < Pow10(width)
    ensures ZeroPad(n, width)[..width - 1] == ZeroPad(n / 10, width - 1)
  {
    ZeroPadLength(n / 10, width - 1);
  }

  /** The padded text reads back as the number it was made from. */
  lemma {:induction false} ZeroPadValue(n: nat, width: nat)
    ensures DigitsValue(ZeroPad(n, width)) == n
    decreases n + width
  {
    var s := ZeroPad(n, width);
    if n < 10 && width <= 1 {
      assert s[..|s| - 1] == [];
    } else {
      var w := if width == 0 then 0 else width - 1;
      ZeroPadValue(n / 10, w);
      assert s[..|s| - 1] == ZeroPad(n / 10, w);
    }
  }

  /** str(i) of an int reads back as i, so distinct counts print differently. */
  lemma IntRoundTrip(i: int)
    ensures ParseInt(IntToString(i)) == i
  {
    if i < 0 {
      ZeroPadValue(-i, 1);
      assert IntToString(i)[1..] == ZeroPad(-i, 1);
    } else {
      ZeroPadValue(i, 1);
    }
  }

  lemma IntToStringInjective(i: int, j: int)
    requires IntToString(i) == IntToString(j)
    ensures i == j
  {
    IntRoundTrip(i);
    IntRoundTrip(j);
  }
}
