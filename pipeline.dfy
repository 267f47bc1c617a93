// One run of either entry point after its arguments are known: fetch the
// feed, print the header, save the raw feed when asked, and print the
// report. Standard output and the working directory are a Host object whose
// fields the run appends to.
module Pipeline {
  import opened Clock
  import opened Feeds
  import opened Report

  /** What the request for a feed came back with: a transport failure, a
      body that is not JSON, or the decoded feed. */
  datatype Fetched = NetworkError | NotJson | Decoded(feed: Feed)

  /** What a run takes from outside the program: the network (URL to
      outcome), the clock, the working directory and the conversions. */
  datatype Env = Env(fetch: string -> Fetched, now: DateTime, cwd: string, fmt: Formats)

  /** A file written by the save option: its name and the JSON indentation. */
  datatype SavedFile = SavedFile(name: string, indent: nat)

  const FeedUrlPrefix := "https://earthquake.usgs.gov/earthquakes/feed/v1.0/summary/"
  const NetworkErrorLine := "\nNetwork Error!\n"

  function FeedUrl(feedId: string): string {
    FeedUrlPrefix + feedId + ".geojson"
  }

  function FetchingLine(feedId: string): string {
    "\nFetching: " + FeedUrl(feedId)
  }

  function LocalTimeLine(now: DateTime): string {
    "\n* System local time: " + DateText(now)
  }

  function UpdatedLine(generated: DateTime): string {
    "* Feed updated time: " + DateText(generated)
  }

  function SavedLine(cwd: string): string {
    "\nJSON file saved to " + cwd
  }

  function SaveFileName(feedId: string): string {
    feedId + ".json"
  }

  /** What is printed between a successful decode and the report. */
  function Header(feed: Feed, save: bool, env: Env): seq<string> {
    [LocalTimeLine(env.now), UpdatedLine(env.fmt.localTime(feed.generated))] +
    (if save then [SavedLine(env.cwd)] else [])
  }

  /** Everything a run prints, in order. */
  function Transcript(feedId: string, save: bool, env: Env, invalidMessage: string): seq<string> {
    [FetchingLine(feedId)] +
    match env.fetch(FeedUrl(feedId))
    case NetworkError => [NetworkErrorLine]
    case NotJson => [invalidMessage]
    case Decoded(feed) => Header(feed, save, env) + Render(feed, env.fmt)
  }

  /** The files a run writes. */
  function Saved(feedId: string, save: bool, env: Env, indent: nat): seq<SavedFile> {
    if save && env.fetch(FeedUrl(feedId)).Decoded? then [SavedFile(SaveFileName(feedId), indent)] else []
  }

  /** A failed fetch or decode prints its one message after the fetching
      line, and no report. */
  lemma FailedTranscript(feedId: string, save: bool, env: Env, invalidMessage: string)
    requires !env.fetch(FeedUrl(feedId)).Decoded?
    ensures Transcript(feedId, save, env, invalidMessage) ==
              [FetchingLine(feedId),
               if env.fetch(FeedUrl(feedId)) == NetworkError then NetworkErrorLine else invalidMessage]
  {
  }

  // Proof helper: counting in a concatenation of three sequences.
  lemma CountThree(a: seq<string>, b: seq<string>, c: seq<string>, x: string)
    ensures multiset(a + b + c)[x] == multiset(a)[x] + multiset(b)[x] + multiset(c)[x]
  {
  }

  lemma HeaderLines(feed: Feed, save: bool, env: Env)
    ensures SeparatorLine !in Header(feed, save, env)
    ensures |Header(feed, save, env)| == if save then 3 else 2
  {
    assert SeparatorLine[1] == '>';
    assert LocalTimeLine(env.now)[1] == '*';
    assert UpdatedLine(env.fmt.localTime(feed.generated))[0] == '*';
    assert SavedLine(env.cwd)[1] == 'J';
  }

  /** A decoded feed prints the fetching line, the header and then the
      report, which ends the output. */
  lemma DecodedTranscript(feedId: string, save: bool, env: Env, invalidMessage: string)
    requires env.fetch(FeedUrl(feedId)).Decoded?
    ensures var feed := env.fetch(FeedUrl(feedId)).feed;
            Transcript(feedId, save, env, invalidMessage) ==
              [FetchingLine(feedId)] + Header(feed, save, env) + Render(feed, env.fmt)
  {
    var feed := env.fetch(FeedUrl(feedId)).feed;
    Associate([FetchingLine(feedId)], Header(feed, save, env), Render(feed, env.fmt));
  }

  // Proof helper: separators of the whole output come from the report only.
  lemma SeparatorCount(fetching: seq<string>, header: seq<string>, report: seq<string>, n: nat)
    requires SeparatorLine !in fetching && SeparatorLine !in header
    requires multiset(report)[SeparatorLine] == n
    ensures multiset(fetching + header + report)[SeparatorLine] == n
  {
    CountThree(fetching, header, report, SeparatorLine);
  }

  /** In the whole output of a decoded feed there is one separator per
      event. */
  lemma DecodedSeparators(feedId: string, save: bool, env: Env, invalidMessage: string)
    requires env.fetch(FeedUrl(feedId)).Decoded?
    ensures multiset(Transcript(feedId, save, env, invalidMessage))[SeparatorLine] ==
              |env.fetch(FeedUrl(feedId)).feed.features|
  {
    var feed := env.fetch(FeedUrl(feedId)).feed;
    DecodedTranscript(feedId, save, env, invalidMessage);
    HeaderLines(feed, save, env);
    assert FetchingLine(feedId)[1] == 'F' && SeparatorLine[1] == '>';
    RenderSeparators(feed, env.fmt);
    SeparatorCount([FetchingLine(feedId)], Header(feed, save, env), Render(feed, env.fmt), |feed.features|);
  }

  /** A file is written exactly when saving was asked for and the feed was
      decoded; it is named after the feed. */
  lemma SavedExactly(feedId: string, save: bool, env: Env, indent: nat)
    ensures Saved(feedId, save, env, indent) != [] <==> save && env.fetch(FeedUrl(feedId)).Decoded?
    ensures Saved(feedId, save, env, indent) != [] ==>
              Saved(feedId, save, env, indent) == [SavedFile(feedId + ".json", indent)]
  {
  }

  /** For an empty feed, the only thing printed after the header (and the
      save notice) is "No earthquakes.". */
  lemma EmptyFeedTranscript(feedId: string, save: bool, env: Env, invalidMessage: string)
    requires env.fetch(FeedUrl(feedId)).Decoded?
    requires env.fetch(FeedUrl(feedId)).feed.features == []
    ensures Transcript(feedId, save, env, invalidMessage) ==
              [FetchingLine(feedId),
               LocalTimeLine(env.now),
               UpdatedLine(env.fmt.localTime(env.fetch(FeedUrl(feedId)).feed.generated))] +
              (if save then [SavedLine(env.cwd)] else []) +
              [NoEarthquakesLine]
  {
    RenderShape(env.fetch(FeedUrl(feedId)).feed, env.fmt);
  }

  /** Standard output and the files written to the working directory. */
  class Host {
    var stdout: seq<string>   // one element per print or click.echo call
    var saved: seq<SavedFile>

    constructor ()
      ensures stdout == [] && saved == []
    {
      stdout, saved := [], [];
    }

    method Echo(message: string)
      modifies this
      ensures stdout == old(stdout) + [message]
      ensures saved == old(saved)
    {
      stdout := stdout + [message];
    }

    /** Writes the raw feed, re-serialised with `indent`, to `name`. */
    method SaveJson(name: string, indent: nat)
      modifies this
      ensures saved == old(saved) + [SavedFile(name, indent)]
      ensures stdout == old(stdout)
    {
      saved := saved + [SavedFile(name, indent)];
    }
  }

  // Proof helpers: sequence identities that the imperative proofs below use
  // instead of letting the solver regroup long concatenations itself.
  lemma AppendFive(s: seq<string>, a: string, b: string, c: string, d: string, e: string)
    ensures s + [a] + [b] + [c] + [d] + [e] == s + [a, b, c, d, e]
  {
  }

  lemma Associate(s: seq<string>, a: seq<string>, b: seq<string>)
    ensures s + a + b == s + (a + b)
  {
  }

  lemma Regroup(s: seq<string>, a: seq<string>, b: seq<string>, c: seq<string>)
    ensures s + a + b + c == s + (a + (b + c))
  {
  }

  /** The body of the report loop: one event's block. */
  method EmitEvent(host: Host, event: Event, fmt: Formats)
    modifies host
    ensures host.stdout == old(host.stdout) + EventBlock(event, fmt)
    ensures host.saved == old(host.saved)
  {
    host.Echo(SeparatorLine);
    if Raised(event.alert) {
      host.Echo(AlertLine(event.alert.value));
    }
    ghost var afterAlert := host.stdout;
    var title := TitleLine(event.place, event.mag, fmt.number);
    host.Echo(title);
    var time := TimeLine(fmt.localTime(event.time));
    host.Echo(time);
    var kind := TypeLine(event.geometryType);
    host.Echo(kind);
    var lon, lat, depth := event.longitude, event.latitude, event.depth;
    var lonDir, latDir := LongitudeSuffix(lon), LatitudeSuffix(lat);
    lon, lat := Abs(lon), Abs(lat);
    var coords := CoordinatesText(lat, latDir, lon, lonDir, depth, fmt.number);
    host.Echo(coords);
    var felt := FeltLine(event.felt);
    host.Echo(felt);
    AppendFive(afterAlert, title, time, kind, coords, felt);
    Regroup(old(host.stdout), [SeparatorLine], AlertLines(event.alert), [title, time, kind, coords, felt]);
  }

  /** One turn of the report loop: the output so far plus one more block is
      the report of one more event. */
  lemma ReportStep(before: seq<string>, done: seq<Event>, e: Event, next: seq<Event>, fmt: Formats, out: seq<string>)
    requires next == done + [e]
    requires out == before + Events(done, fmt) + EventBlock(e, fmt)
    ensures out == before + Events(next, fmt)
  {
    EventsSnoc(done, e, fmt);
    Associate(before, Events(done, fmt), EventBlock(e, fmt));
  }

  /** The report loop: "No earthquakes." for an empty feed, otherwise one
      block per event, in feed order. */
  method EmitReport(host: Host, feed: Feed, fmt: Formats)
    modifies host
    ensures host.stdout == old(host.stdout) + Render(feed, fmt)
    ensures host.saved == old(host.saved)
  {
    var events := feed.features;
    if |events| == 0 {
      host.Echo(NoEarthquakesLine);
      return;
    }
    for i := 0 to |events|
      invariant host.stdout == old(host.stdout) + Events(events[..i], fmt)
      invariant host.saved == old(host.saved)
    {
      EmitEvent(host, events[i], fmt);
      assert events[..i + 1] == events[..i] + [events[i]];
      ReportStep(old(host.stdout), events[..i], events[i], events[..i + 1], fmt, host.stdout);
    }
    assert events[..|events|] == events;
  }

  /** One run: the fetching line, then the failure message or the header,
      the optional save, and the report. */
  method Run(host: Host, feedId: string, save: bool, env: Env, invalidMessage: string, indent: nat)
    modifies host
    ensures host.stdout == old(host.stdout) + Transcript(feedId, save, env, invalidMessage)
    ensures host.saved == old(host.saved) + Saved(feedId, save, env, indent)
  {
    var url := FeedUrl(feedId);
    host.Echo(FetchingLine(feedId));
    match env.fetch(url) {
      case NetworkError =>
        host.Echo(NetworkErrorLine);
      case NotJson =>
        host.Echo(invalidMessage);
      case Decoded(feed) =>
        ghost var fetched := host.stdout;
        var local, updated := LocalTimeLine(env.now), UpdatedLine(env.fmt.localTime(feed.generated));
        host.Echo(local);
        host.Echo(updated);
        assert host.stdout == fetched + [local, updated];
        if save {
          host.SaveJson(SaveFileName(feedId), indent);
          host.Echo(SavedLine(env.cwd));
          Associate(fetched, [local, updated], [SavedLine(env.cwd)]);
        }
        ghost var header := Header(feed, save, env);
        assert host.stdout == fetched + header;
        EmitReport(host, feed, env.fmt);
        Regroup(old(host.stdout), [FetchingLine(feedId)], header, Render(feed, env.fmt));
    }
  }
}
