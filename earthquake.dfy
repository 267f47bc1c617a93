// The prompt-driven entry point: the feed id is built from two answers with
// defaults, saving is asked as a yes/no string, and a saved feed is indented
// by 4.
module Earthquake {
  import opened Pipeline

  const InvalidMessage := "\nError: The parameter is invalid!\n"
  const JsonIndent := 4

  const DefaultMagnitude := "4.5"
  const DefaultTimeRange := "day"
  const DefaultSave := "no"

  /** The magnitudes the banner offers; none contains an underscore. */
  const Magnitudes := ["significant", "4.5", "2.5", "1.0", "all"]

  /** Python's `answer or default` on strings: the empty answer is falsy. */
  function OrDefault(answer: string, default: string): (r: string)
    ensures r == answer || r == default
    ensures r == default <==> answer == "" || answer == default
  {
    if answer == "" then default else answer
  }

  /** `save == "yes"`: only the exact answer yes saves. */
  predicate SaveRequested(answer: string) {
    answer == "yes"
  }

  /** The feed id `magnitude + "_" + time_range` from the two answers. */
  function FeedId(magnitudeAnswer: string, timeRangeAnswer: string): (id: string)
    ensures magnitudeAnswer != "" ==> magnitudeAnswer + "_" <= id
    ensures magnitudeAnswer == "" ==> "4.5_" <= id
    ensures |id| == |OrDefault(magnitudeAnswer, DefaultMagnitude)| + 1 + |OrDefault(timeRangeAnswer, DefaultTimeRange)|
    ensures id[|id| - |OrDefault(timeRangeAnswer, DefaultTimeRange)|..] == OrDefault(timeRangeAnswer, DefaultTimeRange)
  {
    OrDefault(magnitudeAnswer, DefaultMagnitude) + "_" + OrDefault(timeRangeAnswer, DefaultTimeRange)
  }

  /** The position of the first underscore, or the length when there is none. */
  function FirstUnderscore(s: string): (n: nat)
    ensures n <= |s|
    ensures forall i :: 0 <= i < n ==> s[i] != '_'
    ensures n < |s| ==> s[n] == '_'
  {
    if s == [] || s[0] == '_' then 0 else 1 + FirstUnderscore(s[1..])
  }

  /** A feed id taken apart at its first underscore. */
  function SplitFeedId(id: string): (string, string) {
    var n := FirstUnderscore(id);
    if n == |id| then (id, "") else (id[..n], id[n + 1..])
  }

  lemma {:induction false} FirstUnderscoreOf(a: string, b: string)
    requires '_' !in a
    ensures FirstUnderscore(a + "_" + b) == |a|
  {
    if a != [] {
      assert (a + "_" + b)[1..] == a[1..] + "_" + b;
      FirstUnderscoreOf(a[1..], b);
    }
  }

  /** The feed id determines both answers (after defaults) whenever the
      magnitude has no underscore, as none of the offered magnitudes does. */
  lemma FeedIdSplits(magnitudeAnswer: string, timeRangeAnswer: string)
    requires '_' !in OrDefault(magnitudeAnswer, DefaultMagnitude)
    ensures SplitFeedId(FeedId(magnitudeAnswer, timeRangeAnswer)) ==
              (OrDefault(magnitudeAnswer, DefaultMagnitude), OrDefault(timeRangeAnswer, DefaultTimeRange))
  {
    var m, t := OrDefault(magnitudeAnswer, DefaultMagnitude), OrDefault(timeRangeAnswer, DefaultTimeRange);
    var id := FeedId(magnitudeAnswer, timeRangeAnswer);
    FirstUnderscoreOf(m, t);
    assert id[..|m|] == m;
    assert id[|m| + 1..] == t;
  }

  lemma OfferedMagnitudesSplit(k: nat, timeRangeAnswer: string)
    requires k < |Magnitudes|
    ensures SplitFeedId(FeedId(Magnitudes[k], timeRangeAnswer)).0 == Magnitudes[k]
  {
    assert '_' !in Magnitudes[k];
    FeedIdSplits(Magnitudes[k], timeRangeAnswer);
  }

  /** Empty answers give the feed 4.5_day and no saving; a save answer
      saves exactly when it is "yes". */
  lemma PromptDefaults(saveAnswer: string)
    ensures FeedId("", "") == "4.5_day"
    ensures OrDefault("", DefaultSave) == "no" && !SaveRequested(OrDefault("", DefaultSave))
    ensures SaveRequested(OrDefault(saveAnswer, DefaultSave)) <==> saveAnswer == "yes"
  {
  }

  /** `main(type, save)`. */
  method RunFeed(host: Host, feedType: string, save: string, env: Env)
    modifies host
    ensures host.stdout == old(host.stdout) + Transcript(feedType, SaveRequested(save), env, InvalidMessage)
    ensures host.saved == old(host.saved) + Saved(feedType, SaveRequested(save), env, JsonIndent)
  {
    Run(host, feedType, save == "yes", env, InvalidMessage, JsonIndent);
  }

  /** The `__main__` block after the banner: the three answers, then main. */
  method Start(host: Host, magnitudeAnswer: string, timeRangeAnswer: string, saveAnswer: string, env: Env)
    modifies host
    ensures host.stdout == old(host.stdout) +
              Transcript(FeedId(magnitudeAnswer, timeRangeAnswer),
                         SaveRequested(OrDefault(saveAnswer, DefaultSave)), env, InvalidMessage)
    ensures host.saved == old(host.saved) +
              Saved(FeedId(magnitudeAnswer, timeRangeAnswer),
                    SaveRequested(OrDefault(saveAnswer, DefaultSave)), env, JsonIndent)
  {
    var magnitude := OrDefault(magnitudeAnswer, DefaultMagnitude);
    var timeRange := OrDefault(timeRangeAnswer, DefaultTimeRange);
    var save := OrDefault(saveAnswer, DefaultSave);
    var feedType := magnitude + "_" + timeRange;
    RunFeed(host, feedType, save, env);
  }
}
