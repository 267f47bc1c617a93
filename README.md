# Earthquake feed report, modelled in Dafny

The repository has two command-line scripts that fetch a USGS GeoJSON
summary feed and print it as a text report:

- `earthquake_cli.py` takes its arguments as `--type` and `--save/--no-save` flags;
- `earthquake.py` asks for a magnitude, a time range and a yes/no save answer.

Both contain the same run. It prints the fetching line, then one of:

- the network-error message;
- the undecodable-feed message;
- the header. The header is the system time and the feed's update time, then optionally the "saved" notice. After it comes the report.

The report is "No earthquakes." for an empty feed. Otherwise it is one block per event, in feed order. Each block is:

- a separator;
- an alert line, only for yellow, orange and red;
- the title;
- the time;
- the geometry type;
- the coordinates, each printed as an absolute value with an N/S/E/W letter;
- the felt-report line.

The modules follow that structure:

- `Decimal` (decimal.dfy): decimal text of whole numbers, covering Python's `str(int)` and zero-padded strftime fields, and reading it back.
- `Clock` (clock.dfy): the fields of a local date-time and the two strftime formats the scripts use. It also has Python's `s[:-k]` slice.
- `Feeds` (feeds.dfy): a decoded feed: its update time and its events. A JSON number is kept as the decoder gives it, an int (`10`) or a float (`10.0`), because the two print differently.
- `Report` (report.dfy): the per-line selectors, one event's block, the whole report as a function `Render`, and what can be read back from printed output.
- `Pipeline` (pipeline.dfy): one run after the arguments are known. The single function `Transcript` gives every line a run prints, and `Saved` gives the files it writes. Standard output and the working directory are a class `Host` whose fields the methods append to. `EmitEvent`, `EmitReport` and `Run` are the imperative loop and steps of `main`, and each is proved to append exactly `EventBlock`, `Render` or `Transcript`.
- `EarthquakeCli` (earthquake_cli.dfy) and `Earthquake` (earthquake.dfy): the two entry points, with their own error message, save gate, JSON indentation and, for the prompt script, the answers-to-feed-id expression.
- `EntryPoints` (entry_points.dfy): what the two entry points share and where they differ.

Printed output is a `seq<string>` with one element per `print`/`click.echo` call. An element is the message without the newline the call adds.

A run has outside sources. They are parameters of the run (`Pipeline.Env`, `Report.Formats`):

- the network, as a function from URL to outcome;
- the clock;
- the working directory;
- Python's `str()` of a JSON number (int or float);
- the epoch-to-local-time conversion.

The time line keeps two fractional digits, not three. The event time is formatted with `'%Y-%m-%d %H:%M:%S.%f'`, which is 26 characters, and the last four are cut off (`[:-4]`). That keeps 22 characters: the date, the time and the hundredths of a second, truncated, so 123 ms prints as `.12`. The model follows the code (`Clock.DropFourKeepsHundredths`, `Report.TimeLineExample`).

`earthquake.py:51-114` renders the report exactly as `earthquake_cli.py:85-148` does, line for line, 34 lines earlier. The rows below cite the latter for the shared rendering.

## Model

| member | source | states |
|---|---|---|
| Report.Raised | earthquake_cli.py:100 | no contract; defined as the level being yellow, orange or red; its effect is stated by Report.AlertLines and Report.EventBlockKinds |
| Report.Events | earthquake_cli.py:89-92 | no contract; defined as each event's body after a separator, in feed order; stated by Report.EventsShape and Report.EventsSnoc |
| Report.Render | earthquake_cli.py:85-148 | no contract; defined as "No earthquakes." for an empty feed and otherwise the event blocks in feed order; its shape is stated by Report.RenderShape |
| Report.EventBody | earthquake_cli.py:99-148 | no contract; defined as the alert lines, then the title, time, type, coordinates and felt lines; their order is stated by Report.EventBlockKinds |
| Report.EventBlock | earthquake_cli.py:92-148 | no contract; defined as the separator followed by Report.EventBody; stated by Report.EventBlockKinds and Report.OrangeExample |
| Report.AlertLine | earthquake_cli.py:101 | no contract; defined as "!!! ALERT: " + upper(level) + " !!!"; its three texts are stated by Report.AlertLines |
| Report.TitleLine | earthquake_cli.py:104-106 | no contract; defined as "*** Location: " + place, " / Magnitude: ", the printed magnitude and " ***"; stated by Report.KindOfTitle and Report.OrangeExample |
| Report.TimeLine | earthquake_cli.py:109-111 | no contract; defined as "* Time: " + the '%f' text cut by four characters; stated by Report.TimeLineHundredths |
| Report.TypeLine | earthquake_cli.py:114-115 | no contract; defined as "* Type: " + the geometry type; stated by Report.KindOfType |
| Report.CoordinatesText | earthquake_cli.py:136-139 | no contract; defined as the three rows of latitude, longitude and depth after "* Coordinates:"; stated by Report.OrangeExample, through Report.EventBlock |
| Report.TimeLineHundredths | earthquake_cli.py:109-111 | for an in-range time the line is "* Time: ", the date and time, "." and the hundredths of a second, 30 characters |
| Report.EventTimeLine | earthquake_cli.py:109-111 | when local times are in range, an event's line right after its title is that time line, 30 characters |
| Report.AlertLines | earthquake_cli.py:99-101 | at most one alert line; there is one exactly when the level is yellow, orange or red; it reads "!!! ALERT: YELLOW !!!", "… ORANGE …" or "… RED …" |
| Report.UpperLevels | earthquake_cli.py:101 | `upper()` of the three gated levels gives YELLOW, ORANGE, RED |
| Report.Upper | earthquake_cli.py:101 | same length as the input; each character is upper-cased |
| Report.LatitudeSuffix | earthquake_cli.py:128-133 | "N" exactly when the latitude is positive, "S" exactly when it is negative, "" exactly when it is zero |
| Report.LongitudeSuffix | earthquake_cli.py:122-127 | "E" exactly when the longitude is positive, "W" exactly when it is negative, "" exactly when it is zero |
| Report.Abs | earthquake_cli.py:134-135 | the printed coordinate is non-negative, is the input or its negation, and is an int exactly when the input is |
| Report.CoordinateReadsBack | earthquake_cli.py:122-139 | the printed absolute value and the direction letter together give back the signed latitude or longitude |
| Report.FeltLine | earthquake_cli.py:142-148 | None gives "No Report"; 1 gives "1 time"; every other count, zero and negatives included, gives str(n) + " times" |
| Report.FeltLineReadsBack | earthquake_cli.py:142-148 | reading the felt line back gives the felt value it was printed from |
| Report.FeltLineInjective | earthquake_cli.py:142-148 | different felt values print different lines |
| Report.FeltLineExamples | earthquake_cli.py:147-148 | counts 0, -2 and 25 print "0 times", "-2 times", "25 times" |
| Decimal.IntToString | earthquake_cli.py:148 | str(i): a minus sign exactly for negatives, then digits with no leading zero except in "0" |
| Decimal.ZeroPad | earthquake_cli.py:110 | at least `width` characters, all digits: strftime's zero-padded numeric fields (also those of line 69); its value and exact length are stated by Decimal.ZeroPadValue and Decimal.ZeroPadLength |
| Decimal.ZeroPadNoLeadingZero | earthquake_cli.py:148 | an unpadded positive number does not start with 0 |
| Decimal.IntRoundTrip | earthquake_cli.py:148 | str(n) of an int reads back as n |
| Decimal.IntToStringInjective | earthquake_cli.py:148 | different ints have different str() text |
| Decimal.ZeroPadValue | earthquake_cli.py:110 | a zero-padded strftime field reads back as the number it was made from |
| Decimal.ZeroPadLength | earthquake_cli.py:110 | a number below 10^width pads to exactly width characters |
| Clock.DateText | earthquake_cli.py:69 | no contract; defined as the '%Y-%m-%d %H:%M:%S' text of the fields; its length is stated by Clock.DateTextLength |
| Clock.MicrosecondText | earthquake_cli.py:110 | no contract; defined as that text followed by "." and six microsecond digits; its cut is stated by Clock.DropFourKeepsHundredths |
| Clock.DateTextLength | earthquake_cli.py:69-70 | '%Y-%m-%d %H:%M:%S' of an in-range time is 19 characters |
| Clock.DropFourKeepsHundredths | earthquake_cli.py:110-111 | cutting four characters off '%Y-%m-%d %H:%M:%S.%f' leaves 22 characters: the date, the time, "." and the hundredths of a second |
| Clock.DropLast | earthquake_cli.py:111 | `s[:-k]` is a prefix of s, k characters shorter, or empty when s is shorter than k |
| Report.TimeLineExample | earthquake_cli.py:109-111 | at 2017-07-14 02:40:05 local time the line is "* Time: 2017-07-14 02:40:05." plus the hundredths: ".12" for 123 ms, ".00" on the second |
| Report.OrangeExample | earthquake_cli.py:92-148 | an orange magnitude 5.1 event at 120.5 W, 35.2 N, 10 km deep, with no felt reports, prints exactly its seven lines |
| Report.EventBlockKinds | earthquake_cli.py:92-148 | an event's lines come in the fixed order: separator, alert only when raised, title, time, type, coordinates, felt |
| Report.EventBodyLines | earthquake_cli.py:99-148 | no line of an event after its separator is a separator or "No earthquakes." |
| Report.Bodies | earthquake_cli.py:89 | one body per event, the i-th body belonging to the i-th event |
| Report.EventsSnoc | earthquake_cli.py:89-92 | one more event appends exactly its separator and its lines |
| Report.EventsShape | earthquake_cli.py:89-148 | the event blocks of a non-empty list open with a separator and hold one separator per event; cut at the separators, they give back the events' bodies in feed order; "No earthquakes." is not among them |
| Report.RenderShape | earthquake_cli.py:85-92 | an empty feed prints only "No earthquakes."; otherwise the report opens with a separator and there is one separator per event; the groups after the separators are the event bodies in feed order; "No earthquakes." appears exactly when the feed is empty |
| Report.RenderSeparators | earthquake_cli.py:89-92 | the report has one separator per event |
| Report.BlocksOfJoined | earthquake_cli.py:89-92 | groups of lines printed each after a separator are recovered by cutting the output at the separators |
| Pipeline.FetchingLine | earthquake_cli.py:54 | no contract; defined as "\nFetching: " + the feed URL; stated by Pipeline.FailedTranscript and Pipeline.DecodedTranscript |
| Pipeline.LocalTimeLine | earthquake_cli.py:70 | no contract; defined as "\n* System local time: " + the date text of the clock; stated by Pipeline.EmptyFeedTranscript |
| Pipeline.UpdatedLine | earthquake_cli.py:71 | no contract; defined as "* Feed updated time: " + the date text of the feed's generation time; stated by Pipeline.EmptyFeedTranscript |
| Pipeline.SavedLine | earthquake_cli.py:79 | no contract; defined as "\nJSON file saved to " + the working directory; stated by Pipeline.EmptyFeedTranscript |
| Pipeline.SaveFileName | earthquake_cli.py:76 | no contract; defined as the feed id + ".json"; stated by Pipeline.SavedExactly |
| Pipeline.FeedUrl | earthquake_cli.py:53 | no contract; defined as the USGS summary prefix, the feed id and ".geojson"; used by Pipeline.Transcript and Pipeline.Saved |
| Pipeline.Header | earthquake_cli.py:67-82 | no contract; defined as the system-time and feed-time lines, then the save notice when saving; stated by Pipeline.HeaderLines |
| Pipeline.Transcript | earthquake_cli.py:53-148 | no contract; defined as the fetching line, then the failure message or the header and the report; stated by Pipeline.FailedTranscript, Pipeline.DecodedTranscript, Pipeline.DecodedSeparators and Pipeline.EmptyFeedTranscript |
| Pipeline.Saved | earthquake_cli.py:75-79 | no contract; defined as one file named after the feed when saving a decoded feed; stated by Pipeline.SavedExactly |
| Pipeline.FailedTranscript | earthquake_cli.py:53-65 | a network error or an undecodable body prints the fetching line and that one message, and nothing else |
| Pipeline.DecodedTranscript | earthquake_cli.py:53-89 | a decoded feed prints the fetching line, then the header, then the report, which ends the output |
| Pipeline.HeaderLines | earthquake_cli.py:67-82 | the header is two lines, or three with the save notice, and has no separator |
| Pipeline.DecodedSeparators | earthquake_cli.py:53-92 | the whole output of a decoded feed has one separator per event |
| Pipeline.EmptyFeedTranscript | earthquake_cli.py:67-87 | for an empty feed, the only line after the header and the optional save notice is "No earthquakes." |
| Pipeline.SavedExactly | earthquake_cli.py:75-79 | a file is written exactly when saving was asked for and the feed decoded, and it is named after the feed id with ".json" |
| Pipeline.Host.Echo | earthquake_cli.py:54 | printing appends one message to standard output and writes no file |
| Pipeline.Host.SaveJson | earthquake_cli.py:76-78 | saving appends one file with its name and indentation and prints nothing |
| Pipeline.EmitEvent | earthquake_cli.py:92-148 | the loop body appends exactly the event's block, with latitude and longitude replaced by their absolute values after the letters are chosen |
| Pipeline.ReportStep | earthquake_cli.py:89 | after one more turn of the loop, the output is the blocks of one more event |
| Pipeline.EmitReport | earthquake_cli.py:85-148 | the empty-feed check and the per-event loop append exactly `Render` of the feed |
| Pipeline.Run | earthquake_cli.py:52-148 | one run appends exactly `Transcript` to standard output and `Saved` to the written files |
| EarthquakeCli.Command | earthquake_cli.py:21-148 | the flag-driven command prints `Transcript` with the --type error message and saves with indent 2 when --save is given |
| Earthquake.RunFeed | earthquake.py:16-114 | the prompt script's main prints `Transcript` with its own error message and saves, indented 4, only when the answer is exactly "yes" |
| Earthquake.SaveRequested | earthquake.py:41 | no contract; defined as the answer being exactly "yes"; stated by Earthquake.PromptDefaults |
| Earthquake.OrDefault | earthquake.py:144-146 | `answer or default` gives the default exactly when the answer is empty or is the default |
| Earthquake.FeedId | earthquake.py:144-147 | the feed id starts with the magnitude answer (or "4.5") and "_", and ends with the time-range answer (or "day") |
| Earthquake.FirstUnderscore | earthquake.py:147 | the first underscore of a feed id, or its length when there is none |
| Earthquake.FeedIdSplits | earthquake.py:147 | when the magnitude has no underscore, the feed id splits back into the two answers after defaults |
| Earthquake.OfferedMagnitudesSplit | earthquake.py:130-135 | every magnitude the banner offers is recovered from the feed id |
| Earthquake.PromptDefaults | earthquake.py:144-146 | empty answers give 4.5_day and no saving; a save answer saves exactly when it is "yes" (the gate of earthquake.py:41) |
| Earthquake.Start | earthquake.py:144-148 | the three answers, after their `or` defaults, run main with the feed id, saving when Earthquake.SaveRequested holds of the defaulted answer |
| EntryPoints.SameReport | earthquake.py:55-114 | for a decoded feed both entry points print the same lines and name the saved file alike; the indentation is 2 and 4 |
| EntryPoints.DifferentDecodeMessage | earthquake.py:27-31 | an undecodable feed is reported with different words by the two entry points |

## Left out

- The network fetch and the SSL override are not modelled. The outcome of a request for a URL is a parameter of the run: a network error, a body that is not JSON, or the decoded feed.
- JSON decoding and `json.dumps` are library calls. The feed is taken as an already decoded datatype. A saved file is recorded by its name and indentation, not its contents.
- Epoch-to-local-time conversion (`fromtimestamp`, `now`) depends on the time zone and on float arithmetic, so it is a parameter. What strftime makes of the resulting fields is modelled. Lemmas about an event's time line assume `Report.ValidFormats`: every local time has its fields in range, as Python's datetime guarantees.
- Python's `str()` of the JSON numbers (magnitude, coordinates, depth) is a parameter over the int-or-float value. The model proves nothing about its text.
- A float `-0.0` is the same value as `0.0` here. After `abs()` the two print alike, but a depth of `-0.0` printed by `str()` is not distinguished.
- `time.sleep`, the `pip3 install click` bootstrap, click's option parsing and help text, the banner, and the `input()` prompts are UI. The prompt answers and the flag values are parameters.
- Missing keys (a KeyError) and undecodable UTF-8 bodies are not handled by the source either, so events are taken as well-shaped.
- Pipeline.Host.Echo: the newline `print`/`click.echo` appends after each message is left implicit, one message per element.
- Report.Upper: `str.upper()` is modelled for ASCII only. Only the ASCII levels yellow, orange and red reach it.
- Clock.DateText: a year below 1000 prints as four digits here. Python's `%Y` padding for such years depends on the platform.
- Report.FeltLine: the felt count is an int as decoded. A float felt value is not modelled: the source prints 1.0 as "1 time" and 2.0 as "2.0 times".
