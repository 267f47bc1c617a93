// Local wall-clock times and the two strftime formats the report uses.
// Turning epoch milliseconds into a local time depends on the time zone and
// on float arithmetic, so it is not defined here: the report receives it as
// a parameter. What is defined is the text strftime makes of the fields.
module Clock {
  import opened Decimal

  /** A Python datetime's fields. */
  datatype DateTime = DateTime(year: nat, month: nat, day: nat,
                               hour: nat, minute: nat, second: nat,
                               microsecond: nat)

  /** The ranges a Python datetime keeps its fields in. */
  predicate InRange(t: DateTime) {
    1 <= t.year <= 9999 && 1 <= t.month <= 12 && 1 <= t.day <= 31 &&
    t.hour < 24 && t.minute < 60 && t.second < 60 && t.microsecond < 1000000
  }

  /** strftime('%Y-%m-%d %H:%M:%S') */
  function DateText(t: DateTime): string {
    ZeroPad(t.year, 4) + "-" + ZeroPad(t.month, 2) + "-" + ZeroPad(t.day, 2) + " " +
    ZeroPad(t.hour, 2) + ":" + ZeroPad(t.minute, 2) + ":" + ZeroPad(t.second, 2)
  }

  /** strftime('%Y-%m-%d %H:%M:%S.%f') */
  function MicrosecondText(t: DateTime): string {
    DateText(t) + "." + ZeroPad(t.microsecond, 6)
  }

  /** Python's slice s[:-k] for k >= 1: all but the last k characters, or
      nothing when s is shorter than k. */
  function DropLast(s: string, k: nat): (r: string)
    requires k >= 1
    ensures r <= s
    ensures |r| == if |s| >= k then |s| - k else 0
  {
    if |s| >= k then s[..|s| - k] else []
  }

  /** Every in-range time prints as 19 characters. */
  lemma DateTextLength(t: DateTime)
    requires InRange(t)
    ensures |DateText(t)| == 19
  {
    ZeroPadLength(t.year, 4);
    ZeroPadLength(t.month, 2);
    ZeroPadLength(t.day, 2);
    ZeroPadLength(t.hour, 2);
    ZeroPadLength(t.minute, 2);
    ZeroPadLength(t.second, 2);
  }

  /** The first two of the six microsecond digits are the hundredths of a
      second, truncated. */
  lemma MicrosecondLeadingDigits(us: nat)
    requires us < 1000000
    ensures |ZeroPad(us, 6)| == 6
    ensures ZeroPad(us, 6)[..2] == ZeroPad(us / 10000, 2)
  {
    ZeroPadLength(us, 6);
    var s6 := ZeroPad(us, 6);
    ZeroPadDropDigit(us, 6);
    ZeroPadDropDigit(us / 10, 5);
    ZeroPadDropDigit(us / 100, 4);
    ZeroPadDropDigit(us / 1000, 3);
    assert s6[..2] == s6[..5][..4][..3][..2];
    assert us / 10 / 10 / 10 / 10 == us / 10000;
  }

  /** Cutting the last four characters off '%Y-%m-%d %H:%M:%S.%f' keeps the
      date, the time and two fractional digits: hundredths of a second,
      truncated, not milliseconds. */
  lemma {:induction false} DropFourKeepsHundredths(t: DateTime)
    requires InRange(t)
    ensures DropLast(MicrosecondText(t), 4) == DateText(t) + "." + ZeroPad(t.microsecond / 10000, 2)
    ensures |DropLast(MicrosecondText(t), 4)| == 22
  {
    DateTextLength(t);
    MicrosecondLeadingDigits(t.microsecond);
    var d, f := DateText(t), ZeroPad(t.microsecond, 6);
    assert MicrosecondText(t) == d + "." + f;
    assert (d + "." + f)[..22] == d + "." + f[..2];
  }

  /** 2017-07-14 02:40:05, the local time of the worked examples. */
  lemma ExampleYear()
    ensures ZeroPad(2017, 4) == "2017"
  {
    assert ZeroPad(2, 1) == "2";
    assert ZeroPad(20, 2) == ZeroPad(2, 1) + "0";
    assert ZeroPad(201, 3) == ZeroPad(20, 2) + "1";
    assert ZeroPad(2017, 4) == ZeroPad(201, 3) + "7";
  }

  lemma ExampleDateText(us: nat)
    ensures DateText(DateTime(2017, 7, 14, 2, 40, 5, us)) == "2017-07-14 02:40:05"
  {
    ExampleYear();
    assert ZeroPad(7, 2) == ZeroPad(0, 1) + "7";
    assert ZeroPad(14, 2) == ZeroPad(1, 1) + "4";
    assert ZeroPad(2, 2) == ZeroPad(0, 1) + "2";
    assert ZeroPad(40, 2) == ZeroPad(4, 1) + "0";
    assert ZeroPad(5, 2) == ZeroPad(0, 1) + "5";
    ExampleDatePieces(ZeroPad(2017, 4), ZeroPad(7, 2), ZeroPad(14, 2),
                      ZeroPad(2, 2), ZeroPad(40, 2), ZeroPad(5, 2));
  }

  // Proof helper: joins the example fields once each is a known literal.
  lemma ExampleDatePieces(y: string, mo: string, d: string, h: string, mi: string, s: string)
    requires y == "2017" && mo == "07" && d == "14" && h == "02" && mi == "40" && s == "05"
    ensures y + "-" + mo + "-" + d + " " + h + ":" + mi + ":" + s == "2017-07-14 02:40:05"
  {
  }
}
