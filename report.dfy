// The report both entry points print for a decoded feed: the per-line
// selectors (alert gate, direction letters, felt wording), one event's block,
// the whole report, and what can be read back from it.
module Report {
  import opened Decimal
  import opened Clock
  import opened Feeds

  /** The two conversions the report takes from its environment: Python's
      str() of a JSON number, and epoch milliseconds to local time. */
  datatype Formats = Formats(number: Num -> string, localTime: int -> DateTime)

  /** Conversions that behave as Python's datetime does: every local time
      has its fields in range. */
  ghost predicate ValidFormats(fmt: Formats) {
    forall ms :: InRange(fmt.localTime(ms))
  }

  const SeparatorLine := "\n>>>>>\n"
  const NoEarthquakesLine := "\nNo earthquakes.\n"

  const AlertPrefix := "!!! ALERT: "
  const TitlePrefix := "*** Location: "
  const TimePrefix := "* Time: "
  const TypePrefix := "* Type: "
  const CoordinatesPrefix := "* Coordinates:\n"
  const FeltPrefix := "* Felt reported: "

  // ---------------------------------------------------------------- alert

  /** The alert gate: only the levels yellow, orange and red are announced. */
  predicate Raised(alert: Option<string>) {
    alert == Some("yellow") || alert == Some("orange") || alert == Some("red")
  }

  function UpperChar(c: char): char {
    if 'a' <= c <= 'z' then (c as int - 32) as char else c
  }

  /** str.upper() on ASCII text (the gate lets only ASCII levels through). */
  function Upper(s: string): (r: string)
    ensures |r| == |s|
    ensures forall i :: 0 <= i < |s| ==> r[i] == UpperChar(s[i])
  {
    if s == [] then [] else [UpperChar(s[0])] + Upper(s[1..])
  }

  lemma UpperLevels()
    ensures Upper("yellow") == "YELLOW"
    ensures Upper("orange") == "ORANGE"
    ensures Upper("red") == "RED"
  {
  }

  function AlertLine(level: string): string {
    AlertPrefix + (Upper(level) + " !!!")
  }

  lemma AlertLineLevels()
    ensures AlertLine("yellow") == "!!! ALERT: YELLOW !!!"
    ensures AlertLine("orange") == "!!! ALERT: ORANGE !!!"
    ensures AlertLine("red") == "!!! ALERT: RED !!!"
  {
    UpperLevels();
    AlertPieces(AlertPrefix, Upper("yellow"), Upper("orange"), Upper("red"));
  }

  // Proof helper: the alert texts with the prefix passed as a value, which
  // keeps the solver from unfolding the constant inside a literal equality.
  lemma AlertPieces(prefix: string, yellow: string, orange: string, red: string)
    requires prefix == "!!! ALERT: "
    requires yellow == "YELLOW" && orange == "ORANGE" && red == "RED"
    ensures prefix + (yellow + " !!!") == "!!! ALERT: YELLOW !!!"
    ensures prefix + (orange + " !!!") == "!!! ALERT: ORANGE !!!"
    ensures prefix + (red + " !!!") == "!!! ALERT: RED !!!"
  {
  }

  /** The alert line of an event: there is one exactly when the level is
      yellow, orange or red, and it names the level in capitals. */
  function AlertLines(alert: Option<string>): (r: seq<string>)
    ensures |r| <= 1
    ensures r != [] <==> alert in {Some("yellow"), Some("orange"), Some("red")}
    ensures alert == Some("yellow") ==> r == ["!!! ALERT: YELLOW !!!"]
    ensures alert == Some("orange") ==> r == ["!!! ALERT: ORANGE !!!"]
    ensures alert == Some("red") ==> r == ["!!! ALERT: RED !!!"]
  {
    AlertLineLevels();
    if Raised(alert) then [AlertLine(alert.value)] else []
  }

  // ------------------------------------------------------ title, time, type

  function TitleLine(place: string, mag: Num, number: Num -> string): string {
    TitlePrefix + (place + " / Magnitude: " + number(mag) + " ***")
  }

  /** The event time, formatted with microseconds and then cut by four
      characters, as the source's `[:-4]` does. */
  function TimeLine(t: DateTime): string {
    TimePrefix + DropLast(MicrosecondText(t), 4)
  }

  /** The time line of an in-range time: "* Time: ", the date and time, and
      the hundredths of a second; 30 characters in all. */
  lemma TimeLineHundredths(t: DateTime)
    requires InRange(t)
    ensures TimeLine(t) == TimePrefix + (DateText(t) + "." + ZeroPad(t.microsecond / 10000, 2))
    ensures |TimeLine(t)| == 30
  {
    DropFourKeepsHundredths(t);
  }

  function TypeLine(kind: string): string {
    TypePrefix + kind
  }

  // ------------------------------------------------------------ coordinates

  /** Python's abs(): the magnitude, and an int stays an int. */
  function Abs(x: Num): (r: Num)
    ensures Value(r) >= 0.0
    ensures Value(r) == Value(x) || Value(r) == -Value(x)
    ensures r.IntNum? <==> x.IntNum?
  {
    match x
    case IntNum(i) => IntNum(if i < 0 then -i else i)
    case FloatNum(f) => FloatNum(if f < 0.0 then -f else f)
  }

  /** N north of the equator, S south of it, nothing on it. */
  function LatitudeSuffix(lat: Num): (d: string)
    ensures d == "N" <==> Value(lat) > 0.0
    ensures d == "S" <==> Value(lat) < 0.0
    ensures d == "" <==> Value(lat) == 0.0
  {
    if Value(lat) > 0.0 then "N" else if Value(lat) < 0.0 then "S" else ""
  }

  /** E east of the prime meridian, W west of it, nothing on it. */
  function LongitudeSuffix(lon: Num): (d: string)
    ensures d == "E" <==> Value(lon) > 0.0
    ensures d == "W" <==> Value(lon) < 0.0
    ensures d == "" <==> Value(lon) == 0.0
  {
    if Value(lon) > 0.0 then "E" else if Value(lon) < 0.0 then "W" else ""
  }

  /** The coordinates message, from the values as printed: latitude and
      longitude already made absolute, with their direction letters. */
  function CoordinatesText(lat: Num, latDir: string, lon: Num, lonDir: string,
                           depth: Num, number: Num -> string): string
  {
    CoordinatesPrefix +
    ("    - Latitude:  " + number(lat) + " " + latDir + "\n" +
     "    - Longitude: " + number(lon) + " " + lonDir + "\n" +
     "    - Depth:     " + number(depth) + " km")
  }

  /** Reading a printed (absolute value, direction letter) pair back. */
  function SignedValue(magnitude: real, dir: string): real {
    if dir == "S" || dir == "W" then -magnitude else magnitude
  }

  /** The printed magnitude and letter together determine the signed
      coordinate: nothing of the input is lost by printing abs(). */
  lemma CoordinateReadsBack(x: Num)
    ensures SignedValue(Value(Abs(x)), LatitudeSuffix(x)) == Value(x)
    ensures SignedValue(Value(Abs(x)), LongitudeSuffix(x)) == Value(x)
  {
  }

  // ------------------------------------------------------------------- felt

  /** The felt-report wording: no report, one time, or n times for every
      other count, zero and negative counts included. */
  function FeltLine(felt: Option<int>): (r: string)
    ensures felt == None ==> r == "* Felt reported: No Report"
    ensures felt == Some(1) ==> r == "* Felt reported: 1 time"
    ensures felt.Some? && felt.value != 1 ==>
              r == FeltPrefix + (IntToString(felt.value) + " times")
  {
    match felt
    case None => FeltPrefix + "No Report"
    case Some(n) => if n == 1 then FeltPrefix + "1 time" else FeltPrefix + (IntToString(n) + " times")
  }

  /** Reading a felt line back into the felt count. */
  function ReadFelt(line: string): Option<int> {
    if !(FeltPrefix <= line) then None
    else
      var rest := line[|FeltPrefix|..];
      if rest == "No Report" then None
      else if rest == "1 time" then Some(1)
      else if |rest| >= 6 && rest[|rest| - 6..] == " times" then Some(ParseInt(rest[..|rest| - 6]))
      else None
  }

  /** The felt line determines the felt count it was made from. */
  lemma FeltLineReadsBack(felt: Option<int>)
    ensures ReadFelt(FeltLine(felt)) == felt
  {
    var line := FeltLine(felt);
    assert FeltPrefix <= line;
    var rest := line[|FeltPrefix|..];
    if felt.Some? && felt.value != 1 {
      var digits := IntToString(felt.value);
      assert rest == digits + " times";
      assert rest[0] == digits[0];
      assert rest != "No Report" by { assert "No Report"[0] == 'N'; }
      assert rest[|rest| - 6..] == " times";
      assert rest[..|rest| - 6] == digits;
      IntRoundTrip(felt.value);
    }
  }

  lemma FeltLineInjective(a: Option<int>, b: Option<int>)
    requires FeltLine(a) == FeltLine(b)
    ensures a == b
  {
    FeltLineReadsBack(a);
    FeltLineReadsBack(b);
  }

  /** Zero and negative counts are worded like any count other than one. */
  lemma FeltLineExamples()
    ensures FeltLine(Some(0)) == "* Felt reported: 0 times"
    ensures FeltLine(Some(-2)) == "* Felt reported: -2 times"
    ensures FeltLine(Some(25)) == "* Felt reported: 25 times"
  {
    assert IntToString(0) == "0";
    assert IntToString(-2) == "-2";
    assert IntToString(25) == "25";
  }

  // ------------------------------------------------------------ event block

  /** The lines printed for one event after its separator. */
  function EventBody(e: Event, fmt: Formats): seq<string> {
    AlertLines(e.alert) +
    [ TitleLine(e.place, e.mag, fmt.number),
      TimeLine(fmt.localTime(e.time)),
      TypeLine(e.geometryType),
      CoordinatesText(Abs(e.latitude), LatitudeSuffix(e.latitude),
                      Abs(e.longitude), LongitudeSuffix(e.longitude),
                      e.depth, fmt.number),
      FeltLine(e.felt) ]
  }

  /** An event's time line, right after the title, shows its local time to
      the hundredth of a second. */
  lemma EventTimeLine(e: Event, fmt: Formats)
    requires ValidFormats(fmt)
    ensures var t := fmt.localTime(e.time);
            EventBody(e, fmt)[|AlertLines(e.alert)| + 1] ==
              TimePrefix + (DateText(t) + "." + ZeroPad(t.microsecond / 10000, 2))
    ensures |EventBody(e, fmt)[|AlertLines(e.alert)| + 1]| == 30
  {
    var t := fmt.localTime(e.time);
    assert InRange(t);
    TimeLineHundredths(t);
    assert EventBody(e, fmt)[|AlertLines(e.alert)| + 1] == TimeLine(t);
  }

  function EventBlock(e: Event, fmt: Formats): seq<string> {
    [SeparatorLine] + EventBody(e, fmt)
  }

  /** Groups of lines printed one after another, each opened by a separator. */
  function Joined(groups: seq<seq<string>>): seq<string> {
    if groups == [] then [] else [SeparatorLine] + groups[0] + Joined(groups[1..])
  }

  /** The bodies of the events of `fs`, in feed order. */
  function Bodies(fs: seq<Event>, fmt: Formats): (r: seq<seq<string>>)
    ensures |r| == |fs|
    ensures forall i :: 0 <= i < |fs| ==> r[i] == EventBody(fs[i], fmt)
  {
    if fs == [] then [] else [EventBody(fs[0], fmt)] + Bodies(fs[1..], fmt)
  }

  /** The event blocks of `fs`, in feed order. */
  function Events(fs: seq<Event>, fmt: Formats): seq<string> {
    Joined(Bodies(fs, fmt))
  }

  /** The report printed after the header (and the optional save notice). */
  function Render(feed: Feed, fmt: Formats): seq<string> {
    if |feed.features| == 0 then [NoEarthquakesLine] else Events(feed.features, fmt)
  }

  // Proof helper: the fixed part of the example time line, as one literal.
  lemma ExampleTimeText(date: string, fraction: string)
    requires date == "2017-07-14 02:40:05"
    ensures TimePrefix + (date + "." + fraction) == "* Time: 2017-07-14 02:40:05." + fraction
  {
  }

  /** At 2017-07-14 02:40:05 local time, the time line shows the
      hundredths of a second: 123 ms prints as .12. */
  lemma TimeLineExample(us: nat)
    requires us < 1000000
    ensures TimeLine(DateTime(2017, 7, 14, 2, 40, 5, us)) ==
              "* Time: 2017-07-14 02:40:05." + ZeroPad(us / 10000, 2)
    ensures us == 123000 ==> TimeLine(DateTime(2017, 7, 14, 2, 40, 5, us)) == "* Time: 2017-07-14 02:40:05.12"
    ensures us == 0 ==> TimeLine(DateTime(2017, 7, 14, 2, 40, 5, us)) == "* Time: 2017-07-14 02:40:05.00"
  {
    var t := DateTime(2017, 7, 14, 2, 40, 5, us);
    DropFourKeepsHundredths(t);
    ExampleDateText(us);
    var date, fraction := DateText(t), ZeroPad(us / 10000, 2);
    assert TimeLine(t) == TimePrefix + (date + "." + fraction);
    ExampleTimeText(date, fraction);
    if us == 123000 {
      assert ZeroPad(12, 2) == ZeroPad(1, 1) + "2";
      ExampleFraction(fraction, "12");
    } else if us == 0 {
      assert ZeroPad(0, 2) == ZeroPad(0, 1) + "0";
      ExampleFraction(fraction, "00");
    }
  }

  // Proof helper: rewrites the example time line once its fraction is known.
  lemma ExampleFraction(fraction: string, digits: string)
    requires fraction == digits && (digits == "12" || digits == "00")
    ensures "* Time: 2017-07-14 02:40:05." + fraction == "* Time: 2017-07-14 02:40:05." + digits
    ensures digits == "12" ==> "* Time: 2017-07-14 02:40:05." + fraction == "* Time: 2017-07-14 02:40:05.12"
    ensures digits == "00" ==> "* Time: 2017-07-14 02:40:05." + fraction == "* Time: 2017-07-14 02:40:05.00"
  {
  }

  lemma ExampleTitleText(mag: string)
    requires mag == "5.1"
    ensures TitlePrefix + ("10km N of Example" + " / Magnitude: " + mag + " ***") ==
              "*** Location: 10km N of Example / Magnitude: 5.1 ***"
  {
    ExampleTitlePieces(TitlePrefix, mag);
  }

  // Proof helper: the example title with the prefix passed as a value.
  lemma ExampleTitlePieces(prefix: string, mag: string)
    requires prefix == "*** Location: " && mag == "5.1"
    ensures prefix + ("10km N of Example" + " / Magnitude: " + mag + " ***") ==
              "*** Location: 10km N of Example / Magnitude: 5.1 ***"
  {
  }

  /** The coordinate rows of the worked example, row by row. */
  lemma ExampleCoordinatesText(lat: string, lon: string, depth: string)
    requires lat == "35.2" && lon == "120.5" && depth == "10.0"
    ensures CoordinatesPrefix +
              ("    - Latitude:  " + lat + " " + "N" + "\n" +
               "    - Longitude: " + lon + " " + "W" + "\n" +
               "    - Depth:     " + depth + " km") ==
            CoordinatesPrefix + ("    - Latitude:  35.2 N\n" + "    - Longitude: 120.5 W\n" + "    - Depth:     10.0 km")
  {
    var row1 := "    - Latitude:  " + lat + " " + "N" + "\n";
    var row2 := "    - Longitude: " + lon + " " + "W" + "\n";
    var row3 := "    - Depth:     " + depth + " km";
    assert row1 == "    - Latitude:  35.2 N\n";
    assert row2 == "    - Longitude: 120.5 W\n";
    assert row3 == "    - Depth:     10.0 km";
  }

  /** The worked example: an orange alert of magnitude 5.1 at 35.2 N,
      120.5 W and 10 km deep, with no felt reports, given the number texts
      and the local time the environment supplies. */
  lemma OrangeExample(fmt: Formats)
    requires fmt.number(FloatNum(5.1)) == "5.1" && fmt.number(FloatNum(35.2)) == "35.2"
    requires fmt.number(FloatNum(120.5)) == "120.5" && fmt.number(FloatNum(10.0)) == "10.0"
    requires fmt.localTime(1500000005000) == DateTime(2017, 7, 14, 2, 40, 5, 0)
    ensures EventBlock(Event(Some("orange"), FloatNum(5.1), "10km N of Example", 1500000005000, "Point",
                             FloatNum(-120.5), FloatNum(35.2), FloatNum(10.0), None), fmt) ==
            [ "\n>>>>>\n",
              "!!! ALERT: ORANGE !!!",
              "*** Location: 10km N of Example / Magnitude: 5.1 ***",
              "* Time: 2017-07-14 02:40:05.00",
              "* Type: Point",
              "* Coordinates:\n" + ("    - Latitude:  35.2 N\n" + "    - Longitude: 120.5 W\n" + "    - Depth:     10.0 km"),
              "* Felt reported: No Report" ]
  {
    var e := Event(Some("orange"), FloatNum(5.1), "10km N of Example", 1500000005000, "Point",
                   FloatNum(-120.5), FloatNum(35.2), FloatNum(10.0), None);
    var title := TitleLine(e.place, e.mag, fmt.number);
    var time := TimeLine(fmt.localTime(e.time));
    var kind := TypeLine(e.geometryType);
    var coords := CoordinatesText(Abs(e.latitude), LatitudeSuffix(e.latitude),
                                  Abs(e.longitude), LongitudeSuffix(e.longitude),
                                  e.depth, fmt.number);
    var felt := FeltLine(e.felt);
    ExampleTitleText(fmt.number(FloatNum(5.1)));
    TimeLineExample(0);
    ExampleTypeText(e.geometryType);
    assert Abs(e.latitude) == FloatNum(35.2) && Abs(e.longitude) == FloatNum(120.5);
    ExampleCoordinatesText(fmt.number(FloatNum(35.2)), fmt.number(FloatNum(120.5)), fmt.number(FloatNum(10.0)));
    BlockOfSeven(EventBlock(e, fmt), AlertLines(e.alert), title, time, kind, coords, felt);
  }

  // Proof helper: the example type line.
  lemma ExampleTypeText(kind: string)
    requires kind == "Point"
    ensures TypePrefix + kind == "* Type: Point"
  {
    var prefix := TypePrefix;
    assert prefix == "* Type: ";
  }

  // Proof helper: flattens a block with one alert line into its seven lines.
  lemma BlockOfSeven(block: seq<string>, alert: seq<string>,
                     title: string, time: string, kind: string, coords: string, felt: string)
    requires |alert| == 1
    requires block == [SeparatorLine] + (alert + [title, time, kind, coords, felt])
    ensures block == [SeparatorLine, alert[0], title, time, kind, coords, felt]
  {
  }

  // ------------------------------------------------------- reading it back

  datatype LineKind = SeparatorKind | AlertKind | TitleKind | TimeKind
                    | TypeKind | CoordinatesKind | FeltKind | OtherKind

  /** What a printed message is, judged from its text alone. */
  function Kind(line: string): LineKind {
    if line == SeparatorLine then SeparatorKind
    else if AlertPrefix <= line then AlertKind
    else if TitlePrefix <= line then TitleKind
    else if TimePrefix <= line then TimeKind
    else if TypePrefix <= line then TypeKind
    else if CoordinatesPrefix <= line then CoordinatesKind
    else if FeltPrefix <= line then FeltKind
    else OtherKind
  }

  function Kinds(lines: seq<string>): (r: seq<LineKind>)
    ensures |r| == |lines|
    ensures forall i :: 0 <= i < |lines| ==> r[i] == Kind(lines[i])
  {
    if lines == [] then [] else [Kind(lines[0])] + Kinds(lines[1..])
  }

  lemma {:induction false} KindsAppend(a: seq<string>, b: seq<string>)
    ensures Kinds(a + b) == Kinds(a) + Kinds(b)
  {
    if a != [] {
      assert (a + b)[1..] == a[1..] + b;
      KindsAppend(a[1..], b);
    }
  }

  // Proof helper: the kinds of the five fixed lines of a block.
  lemma FixedKinds(title: string, time: string, kind: string, coords: string, felt: string)
    requires Kind(title) == TitleKind && Kind(time) == TimeKind && Kind(kind) == TypeKind
    requires Kind(coords) == CoordinatesKind && Kind(felt) == FeltKind
    ensures Kinds([title, time, kind, coords, felt]) == [TitleKind, TimeKind, TypeKind, CoordinatesKind, FeltKind]
  {
  }

  lemma KindOfAlert(rest: string)
    ensures Kind(AlertPrefix + rest) == AlertKind
  {
    assert (AlertPrefix + rest)[0] == '!';
  }

  lemma KindOfTitle(rest: string)
    ensures Kind(TitlePrefix + rest) == TitleKind
  {
    var line := TitlePrefix + rest;
    assert line[0] == '*' && line[1] == '*';
    assert !(AlertPrefix <= line) by { assert AlertPrefix[0] != line[0]; }
  }

  lemma KindOfTime(rest: string)
    ensures Kind(TimePrefix + rest) == TimeKind
  {
    var line := TimePrefix + rest;
    assert line[0] == '*' && line[1] == ' ';
    assert !(AlertPrefix <= line) by { assert AlertPrefix[0] != line[0]; }
    assert !(TitlePrefix <= line) by { assert TitlePrefix[1] != line[1]; }
  }

  lemma KindOfType(rest: string)
    ensures Kind(TypePrefix + rest) == TypeKind
  {
    var line := TypePrefix + rest;
    assert line[0] == '*' && line[1] == ' ' && line[3] == 'y';
    assert !(AlertPrefix <= line) by { assert AlertPrefix[0] != line[0]; }
    assert !(TitlePrefix <= line) by { assert TitlePrefix[1] != line[1]; }
    assert !(TimePrefix <= line) by { assert TimePrefix[3] != line[3]; }
  }

  lemma KindOfCoordinates(rest: string)
    ensures Kind(CoordinatesPrefix + rest) == CoordinatesKind
  {
    var line := CoordinatesPrefix + rest;
    assert line[0] == '*' && line[1] == ' ' && line[2] == 'C';
    assert !(AlertPrefix <= line) by { assert AlertPrefix[0] != line[0]; }
    assert !(TitlePrefix <= line) by { assert TitlePrefix[1] != line[1]; }
    assert !(TimePrefix <= line) by { assert TimePrefix[2] != line[2]; }
    assert !(TypePrefix <= line) by { assert TypePrefix[2] != line[2]; }
  }

  lemma KindOfFelt(rest: string)
    ensures Kind(FeltPrefix + rest) == FeltKind
  {
    var line := FeltPrefix + rest;
    assert line[0] == '*' && line[1] == ' ' && line[2] == 'F';
    assert !(AlertPrefix <= line) by { assert AlertPrefix[0] != line[0]; }
    assert !(TitlePrefix <= line) by { assert TitlePrefix[1] != line[1]; }
    assert !(TimePrefix <= line) by { assert TimePrefix[2] != line[2]; }
    assert !(TypePrefix <= line) by { assert TypePrefix[2] != line[2]; }
    assert !(CoordinatesPrefix <= line) by { assert CoordinatesPrefix[2] != line[2]; }
  }

  /** The fixed order of an event's lines: separator, alert (only when
      raised), title, time, type, coordinates, felt. */
  lemma EventBlockKinds(e: Event, fmt: Formats)
    ensures Kinds(EventBlock(e, fmt)) ==
              [SeparatorKind] + (if Raised(e.alert) then [AlertKind] else []) +
              [TitleKind, TimeKind, TypeKind, CoordinatesKind, FeltKind]
  {
    var alert := AlertLines(e.alert);
    var title := TitleLine(e.place, e.mag, fmt.number);
    var time := TimeLine(fmt.localTime(e.time));
    var kind := TypeLine(e.geometryType);
    var coords := CoordinatesText(Abs(e.latitude), LatitudeSuffix(e.latitude),
                                  Abs(e.longitude), LongitudeSuffix(e.longitude),
                                  e.depth, fmt.number);
    var felt := FeltLine(e.felt);
    var block := EventBlock(e, fmt);
    assert block == [SeparatorLine] + alert + [title, time, kind, coords, felt];
    if Raised(e.alert) {
      KindOfAlert(Upper(e.alert.value) + " !!!");
      assert Kind(alert[0]) == AlertKind;
    }
    KindOfTitle(e.place + " / Magnitude: " + fmt.number(e.mag) + " ***");
    KindOfTime(DropLast(MicrosecondText(fmt.localTime(e.time)), 4));
    KindOfType(e.geometryType);
    KindOfCoordinates(
      "    - Latitude:  " + fmt.number(Abs(e.latitude)) + " " + LatitudeSuffix(e.latitude) + "\n" +
      "    - Longitude: " + fmt.number(Abs(e.longitude)) + " " + LongitudeSuffix(e.longitude) + "\n" +
      "    - Depth:     " + fmt.number(e.depth) + " km");
    match e.felt {
      case None => KindOfFelt("No Report");
      case Some(n) => if n == 1 { KindOfFelt("1 time"); } else { KindOfFelt(IntToString(n) + " times"); }
    }
    var rest := [title, time, kind, coords, felt];
    KindsAppend([SeparatorLine] + alert, rest);
    KindsAppend([SeparatorLine], alert);
    FixedKinds(title, time, kind, coords, felt);
    assert Kinds(alert) == if Raised(e.alert) then [AlertKind] else [];
  }

  lemma BodyKinds(block: seq<string>, body: seq<string>, raised: bool)
    requires block == [SeparatorLine] + body
    requires Kinds(block) == [SeparatorKind] + (if raised then [AlertKind] else []) +
                             [TitleKind, TimeKind, TypeKind, CoordinatesKind, FeltKind]
    ensures forall k :: 0 <= k < |body| ==> Kind(body[k]) != SeparatorKind && Kind(body[k]) != OtherKind
  {
    forall k | 0 <= k < |body|
      ensures Kind(body[k]) != SeparatorKind && Kind(body[k]) != OtherKind
    {
      assert body[k] == block[k + 1];
      assert Kinds(block)[k + 1] == Kind(block[k + 1]);
    }
  }

  /** No line of an event's body is a separator or a "No earthquakes." line. */
  lemma EventBodyLines(e: Event, fmt: Formats)
    ensures forall k :: 0 <= k < |EventBody(e, fmt)| ==>
              Kind(EventBody(e, fmt)[k]) != SeparatorKind && Kind(EventBody(e, fmt)[k]) != OtherKind
    ensures SeparatorLine !in EventBody(e, fmt)
    ensures NoEarthquakesLine !in EventBody(e, fmt)
  {
    EventBlockKinds(e, fmt);
    var body := EventBody(e, fmt);
    BodyKinds(EventBlock(e, fmt), body, Raised(e.alert));
    assert Kind(NoEarthquakesLine) == OtherKind by {
      assert NoEarthquakesLine[0] == '\n' && NoEarthquakesLine[1] == 'N';
    }
    assert Kind(SeparatorLine) == SeparatorKind;
  }

  /** The number of lines before the first separator. */
  function UntilSeparator(lines: seq<string>): (n: nat)
    ensures n <= |lines|
    ensures forall i :: 0 <= i < n ==> lines[i] != SeparatorLine
    ensures n < |lines| ==> lines[n] == SeparatorLine
  {
    if lines == [] || lines[0] == SeparatorLine then 0 else 1 + UntilSeparator(lines[1..])
  }

  /** Splits printed output into the groups of lines that follow each
      separator; lines before the first separator belong to no group. */
  function Blocks(lines: seq<string>): seq<seq<string>>
    decreases |lines|
  {
    if lines == [] then []
    else if lines[0] != SeparatorLine then Blocks(lines[1..])
    else
      var n := UntilSeparator(lines[1..]);
      [lines[1..1 + n]] + Blocks(lines[1 + n..])
  }

  lemma {:induction false} UntilSeparatorSkips(a: seq<string>, b: seq<string>)
    requires SeparatorLine !in a
    requires b == [] || b[0] == SeparatorLine
    ensures UntilSeparator(a + b) == |a|
  {
    if a != [] {
      assert (a + b)[1..] == a[1..] + b;
      UntilSeparatorSkips(a[1..], b);
    }
  }

  /** A separator followed by a separator-free group and then the next
      separator (or the end) splits off that group. */
  lemma BlocksCons(g: seq<string>, rest: seq<string>)
    requires SeparatorLine !in g
    requires rest == [] || rest[0] == SeparatorLine
    ensures Blocks([SeparatorLine] + (g + rest)) == [g] + Blocks(rest)
  {
    var lines := [SeparatorLine] + (g + rest);
    UntilSeparatorSkips(g, rest);
    assert lines[1..] == g + rest;
    assert lines[1..1 + |g|] == g;
    assert lines[1 + |g|..] == rest;
  }

  /** Groups free of separators are recovered by splitting at separators. */
  lemma {:induction false} BlocksOfJoined(groups: seq<seq<string>>)
    requires forall i :: 0 <= i < |groups| ==> SeparatorLine !in groups[i]
    ensures Blocks(Joined(groups)) == groups
  {
    if groups != [] {
      var g, rest := groups[0], Joined(groups[1..]);
      assert Joined(groups) == [SeparatorLine] + (g + rest);
      assert rest == [] || rest[0] == SeparatorLine;
      BlocksCons(g, rest);
      BlocksOfJoined(groups[1..]);
      assert groups == [g] + groups[1..];
    }
  }

  /** One separator per group; a line that is neither a separator nor in
      any group does not appear. */
  lemma {:induction false} JoinedLines(groups: seq<seq<string>>, other: string)
    requires forall i :: 0 <= i < |groups| ==> SeparatorLine !in groups[i] && other !in groups[i]
    requires other != SeparatorLine
    ensures multiset(Joined(groups))[SeparatorLine] == |groups|
    ensures other !in Joined(groups)
  {
    if groups != [] {
      JoinedLines(groups[1..], other);
      assert multiset(groups[0])[SeparatorLine] == 0;
      assert Joined(groups) == [SeparatorLine] + groups[0] + Joined(groups[1..]);
    }
  }

  lemma {:induction false} JoinedSnoc(groups: seq<seq<string>>, g: seq<string>)
    ensures Joined(groups + [g]) == Joined(groups) + ([SeparatorLine] + g)
  {
    if groups == [] {
      assert [g][1..] == [];
    } else {
      assert (groups + [g])[1..] == groups[1..] + [g];
      JoinedSnoc(groups[1..], g);
    }
  }

  /** Appending an event appends its block; the printing loop relies on it. */
  lemma EventsSnoc(fs: seq<Event>, e: Event, fmt: Formats)
    ensures Events(fs + [e], fmt) == Events(fs, fmt) + EventBlock(e, fmt)
  {
    var before, body := Bodies(fs, fmt), EventBody(e, fmt);
    var after := Bodies(fs + [e], fmt);
    assert |after| == |before + [body]|;
    forall i | 0 <= i < |after|
      ensures after[i] == (before + [body])[i]
    {
      if i < |fs| {
        assert (fs + [e])[i] == fs[i];
      } else {
        assert (fs + [e])[i] == e;
      }
    }
    assert after == before + [body];
    JoinedSnoc(before, body);
  }

  lemma BodiesClean(fs: seq<Event>, fmt: Formats)
    ensures forall i :: 0 <= i < |fs| ==>
              SeparatorLine !in Bodies(fs, fmt)[i] && NoEarthquakesLine !in Bodies(fs, fmt)[i]
  {
    forall i | 0 <= i < |fs|
      ensures SeparatorLine !in Bodies(fs, fmt)[i] && NoEarthquakesLine !in Bodies(fs, fmt)[i]
    {
      EventBodyLines(fs[i], fmt);
    }
  }

  /** The event blocks of `fs`: opened by a separator, one separator per
      event, split back into the bodies, and no "No earthquakes." line. */
  lemma EventsShape(fs: seq<Event>, fmt: Formats)
    ensures multiset(Events(fs, fmt))[SeparatorLine] == |fs|
    ensures Blocks(Events(fs, fmt)) == Bodies(fs, fmt)
    ensures NoEarthquakesLine !in Events(fs, fmt)
    ensures fs != [] ==> Events(fs, fmt)[0] == SeparatorLine
  {
    var groups := Bodies(fs, fmt);
    BodiesClean(fs, fmt);
    JoinedLines(groups, NoEarthquakesLine);
    BlocksOfJoined(groups);
  }

  /** One separator per event in the report. */
  lemma RenderSeparators(feed: Feed, fmt: Formats)
    ensures multiset(Render(feed, fmt))[SeparatorLine] == |feed.features|
  {
    RenderShape(feed, fmt);
  }

  /** The shape of the whole report: an empty feed prints only "No
      earthquakes."; otherwise it opens with a separator, there is one
      separator per event, the groups that follow the separators are the
      events' bodies in feed order, and "No earthquakes." does not appear. */
  lemma RenderShape(feed: Feed, fmt: Formats)
    ensures feed.features == [] ==> Render(feed, fmt) == [NoEarthquakesLine]
    ensures multiset(Render(feed, fmt))[SeparatorLine] == |feed.features|
    ensures |Blocks(Render(feed, fmt))| == |feed.features|
    ensures forall i :: 0 <= i < |feed.features| ==>
              Blocks(Render(feed, fmt))[i] == EventBody(feed.features[i], fmt)
    ensures NoEarthquakesLine in Render(feed, fmt) <==> feed.features == []
    ensures feed.features != [] ==> Render(feed, fmt)[0] == SeparatorLine
  {
    if feed.features == [] {
      assert Blocks([NoEarthquakesLine]) == Blocks([]);
    } else {
      EventsShape(feed.features, fmt);
    }
  }
}
